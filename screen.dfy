/** The CHIP-8 display buffer (`Screen`): one byte per pixel, row-major, the
    top-left pixel at index 0, 1 for white and 0 for black.

    The buffer is a fixed-size array that `Clear` and `Invert` update in place.
    Each method is specified against a function on the buffer's contents
    (`Blank`, `Toggle`), and the lemmas about those functions carry the
    properties drawing relies on: a pixel toggled twice is restored, toggles
    commute, and a buffer of 0s and 1s stays one. */
module Display {

  /** `WIDTH` and `HEIGHT` of the canonical CHIP-8 display. */
  const WIDTH: nat := 64
  const HEIGHT: nat := 32

  /** Rust's `u8`. The screen only compares, stores and adds these values,
      so they are integers here; the decoder, which works on bit patterns,
      uses `bv8` instead. */
  type u8 = x: int | 0 <= x < 0x100

  /** Index of pixel (x, y) in the buffer, computed with no wrapping. */
  function Address(x: u8, y: u8): nat
  {
    y * WIDTH + x
  }

  /** Every cell is 0 (black) or 1 (white). */
  ghost predicate Binary(cells: seq<u8>)
  {
    forall k :: 0 <= k < |cells| ==> cells[k] == 0 || cells[k] == 1
  }

  /** The all-black screen. */
  function Blank(): (cells: seq<u8>)
    ensures |cells| == WIDTH * HEIGHT
    ensures forall k :: 0 <= k < |cells| ==> cells[k] == 0
  {
    seq(WIDTH * HEIGHT, _ => 0)
  }

  /** The buffer after inverting cell `a`: the cell becomes 1 exactly when it
      was not 1, and becomes 0 otherwise; no other cell changes. */
  function Toggle(cells: seq<u8>, a: nat): (r: seq<u8>)
    requires a < |cells|
    ensures |r| == |cells|
    ensures r[a] == 1 <==> cells[a] != 1
    ensures r[a] == 0 || r[a] == 1
    ensures forall k :: 0 <= k < |cells| && k != a ==> r[k] == cells[k]
    ensures Binary(cells) ==> Binary(r)
  {
    cells[a := if cells[a] != 1 then 1 else 0]
  }

  // ---------------------------------------------------------------------
  // Properties of the specification functions.
  // ---------------------------------------------------------------------

  /** In range, an address names exactly one pixel: its row is the quotient
      and its column the remainder by `WIDTH`. */
  lemma AddressRowMajor(x: u8, y: u8)
    requires x < WIDTH
    ensures Address(x, y) / WIDTH == y && Address(x, y) % WIDTH == x
  {
  }

  /** Every on-screen coordinate is inside the buffer. */
  lemma AddressInBuffer(x: u8, y: u8)
    requires x < WIDTH && y < HEIGHT
    ensures Address(x, y) < WIDTH * HEIGHT
  {
  }

  /** No wrapping: a column past the right edge is the start of the next row. */
  lemma AddressOverflowsIntoNextRow(x: u8, y: u8)
    requires x + WIDTH < 0x100 && y + 1 < 0x100
    ensures Address(x + WIDTH, y) == Address(x, y + 1)
  {
  }

  lemma BlankBinary()
    ensures Binary(Blank())
  {
  }

  /** Inverting a black or white cell twice restores it. */
  lemma ToggleTwice(cells: seq<u8>, a: nat)
    requires a < |cells| && (cells[a] == 0 || cells[a] == 1)
    ensures Toggle(Toggle(cells, a), a) == cells
  {
  }

  /** The collision signal of the draw instruction, stated once for the
      buffer: the new pixel is not white exactly when a white pixel was
      turned off. `Screen.Invert` returns its negation as `lit`. */
  lemma ToggleReportsCollision(cells: seq<u8>, a: nat)
    requires a < |cells|
    ensures Toggle(cells, a)[a] != 1 <==> cells[a] == 1
  {
  }

  /** Inverting two cells gives the same buffer in either order. */
  lemma ToggleCommutes(cells: seq<u8>, a: nat, b: nat)
    requires a < |cells| && b < |cells|
    ensures Toggle(Toggle(cells, a), b) == Toggle(Toggle(cells, b), a)
  {
  }

  /** The buffer after inverting the cells at `addrs` in turn, as drawing a
      sprite does: only those cells can change. */
  function ToggleAll(cells: seq<u8>, addrs: seq<nat>): (r: seq<u8>)
    requires forall k :: 0 <= k < |addrs| ==> addrs[k] < |cells|
    ensures |r| == |cells|
    ensures forall k :: 0 <= k < |cells| && k !in addrs ==> r[k] == cells[k]
    decreases |addrs|
  {
    if addrs == [] then cells else ToggleAll(Toggle(cells, addrs[0]), addrs[1..])
  }

  /** One more inversion can be done first or last. */
  lemma {:induction false} ToggleAllToggle(cells: seq<u8>, a: nat, addrs: seq<nat>)
    requires a < |cells|
    requires forall k :: 0 <= k < |addrs| ==> addrs[k] < |cells|
    ensures ToggleAll(Toggle(cells, a), addrs) == Toggle(ToggleAll(cells, addrs), a)
    decreases |addrs|
  {
    if addrs != [] {
      ToggleCommutes(cells, a, addrs[0]);
      ToggleAllToggle(Toggle(cells, addrs[0]), a, addrs[1..]);
    }
  }

  /** Drawing the same pixels twice over a black-and-white buffer erases the
      first drawing. */
  lemma {:induction false} ToggleAllTwice(cells: seq<u8>, addrs: seq<nat>)
    requires Binary(cells)
    requires forall k :: 0 <= k < |addrs| ==> addrs[k] < |cells|
    ensures ToggleAll(ToggleAll(cells, addrs), addrs) == cells
    decreases |addrs|
  {
    if addrs != [] {
      var a, rest := addrs[0], addrs[1..];
      var drawn := ToggleAll(Toggle(cells, a), rest);
      assert ToggleAll(cells, addrs) == drawn;
      assert ToggleAll(drawn, addrs) == ToggleAll(Toggle(drawn, a), rest);
      ToggleAllToggle(Toggle(cells, a), a, rest);
      ToggleTwice(cells, a);
      ToggleAllTwice(cells, rest);
    }
  }

  /** Drawing keeps every cell black or white. */
  lemma {:induction false} ToggleAllBinary(cells: seq<u8>, addrs: seq<nat>)
    requires Binary(cells)
    requires forall k :: 0 <= k < |addrs| ==> addrs[k] < |cells|
    ensures Binary(ToggleAll(cells, addrs))
    decreases |addrs|
  {
    if addrs != [] {
      ToggleAllBinary(Toggle(cells, addrs[0]), addrs[1..]);
    }
  }

  // ---------------------------------------------------------------------
  // The buffer itself.
  // ---------------------------------------------------------------------

  /** `Screen`: the pixel buffer, updated in place. */
  class Screen {
    const pixels: array<u8>

    /** The buffer has `WIDTH * HEIGHT` cells, each black or white: every
        write stores 0 or 1, which is what the frame renderer expects. */
    ghost predicate Valid()
      reads pixels
    {
      pixels.Length == WIDTH * HEIGHT && Binary(pixels[..])
    }

    /** `Default::default`: a black screen of `WIDTH * HEIGHT` cells. */
    constructor ()
      ensures Valid() && fresh(pixels)
      ensures pixels[..] == Blank()
    {
      pixels := new u8[WIDTH * HEIGHT](_ => 0);
      BlankBinary();
    }

    /** `clear`: every cell becomes 0 and the size is kept. */
    method Clear()
      requires Valid()
      modifies pixels
      ensures Valid()
      ensures pixels[..] == Blank()
    {
      for k := 0 to pixels.Length
        invariant forall j :: 0 <= j < k ==> pixels[j] == 0
      {
        pixels[k] := 0;
      }
      BlankBinary();
    }

    /** `invert`: toggles pixel (x, y) and returns whether it is now white.
        The index is not wrapped; an index outside the buffer is a panic in
        the Rust code, so it is excluded here. */
    method Invert(x: u8, y: u8) returns (lit: bool)
      requires Valid() && Address(x, y) < pixels.Length
      modifies pixels
      ensures Valid()
      ensures pixels[..] == Toggle(old(pixels[..]), Address(x, y))
      ensures lit <==> pixels[Address(x, y)] == 1
      ensures !lit <==> old(pixels[Address(x, y)]) == 1
    {
      var address := y * WIDTH + x;
      var newState := pixels[address] != 1;
      pixels[address] := if newState then 1 else 0;
      lit := newState;
    }

    /** `get`: the buffer itself, unchanged. */
    method Get() returns (frame: array<u8>)
      requires Valid()
      ensures frame == pixels && frame.Length == WIDTH * HEIGHT
    {
      frame := pixels;
    }
  }
}
