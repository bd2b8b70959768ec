/** The eight resize handles of the box and the `direction` token the state
    keeps while a resize is active. */
module Handles {
  import opened Geometry

  /** One of the eight edge/corner handles rendered around the box */
  datatype Handle = TL | T | TR | L | R | BL | B | BR

  /** The state's `direction`: the token `'none'` outside a resize, or the
      handle the resize started on. */
  datatype Direction = NoDirection | Toward(handle: Handle)

  /** The handles in the order they are rendered */
  const Edges: seq<Handle> := [TL, T, TR, L, R, BL, B, BR]

  /** The button value each handle carries */
  function HandleToken(h: Handle): string {
    match h
    case TL => "tl"
    case T => "t"
    case TR => "tr"
    case L => "l"
    case R => "r"
    case BL => "bl"
    case B => "b"
    case BR => "br"
  }

  /** The string held in the state's `direction` field */
  function Token(d: Direction): string {
    match d
    case NoDirection => "none"
    case Toward(h) => HandleToken(h)
  }

  /** `direction.includes(c)` for a one-letter `c` */
  predicate Includes(d: Direction, c: char) {
    c in Token(d)
  }

  predicate HasT(d: Direction) { Includes(d, 't') }
  predicate HasL(d: Direction) { Includes(d, 'l') }
  predicate HasR(d: Direction) { Includes(d, 'r') }
  predicate HasB(d: Direction) { Includes(d, 'b') }

  /** Reads a button value back into a handle; anything that is not one of
      the eight tokens is rejected. */
  function ParseHandle(s: string): (r: Option<Handle>)
    ensures r.Some? ==> HandleToken(r.value) == s
    ensures r.None? ==> forall h :: HandleToken(h) != s
  {
    if s == "tl" then Some(TL)
    else if s == "t" then Some(T)
    else if s == "tr" then Some(TR)
    else if s == "l" then Some(L)
    else if s == "r" then Some(R)
    else if s == "bl" then Some(BL)
    else if s == "b" then Some(B)
    else if s == "br" then Some(BR)
    else None
  }

  /** Every handle's token reads back as that handle */
  lemma ParseHandleToken(h: Handle)
    ensures ParseHandle(HandleToken(h)) == Some(h)
  {
  }

  /** `Edges` lists every handle exactly once */
  lemma EdgesEnumerateHandles()
    ensures forall h: Handle :: h in Edges
    ensures forall i, j :: 0 <= i < j < |Edges| ==> Edges[i] != Edges[j]
    ensures |Edges| == 8
  {
    forall h: Handle ensures h in Edges {
      match h
      case TL => assert Edges[0] == h;
      case T => assert Edges[1] == h;
      case TR => assert Edges[2] == h;
      case L => assert Edges[3] == h;
      case R => assert Edges[4] == h;
      case BL => assert Edges[5] == h;
      case B => assert Edges[6] == h;
      case BR => assert Edges[7] == h;
    }
  }

  /** Which handles carry which letters: top handles carry `t`, left
      handles `l`, right handles `r`, bottom handles `b`; `'none'` carries
      none of them. */
  lemma HandleLetters(d: Direction)
    ensures HasT(d) <==> d == Toward(TL) || d == Toward(T) || d == Toward(TR)
    ensures HasL(d) <==> d == Toward(TL) || d == Toward(L) || d == Toward(BL)
    ensures HasR(d) <==> d == Toward(TR) || d == Toward(R) || d == Toward(BR)
    ensures HasB(d) <==> d == Toward(BL) || d == Toward(B) || d == Toward(BR)
  {
    match d
    case NoDirection =>
      assert Token(d) == ['n', 'o', 'n', 'e'];
    case Toward(h) =>
  }

  /** No token names two opposite edges, and every handle names at least one
      edge, while `'none'` names none. */
  lemma AxesAreExclusive(d: Direction)
    ensures !(HasT(d) && HasB(d))
    ensures !(HasL(d) && HasR(d))
    ensures d.Toward? <==> HasT(d) || HasL(d) || HasR(d) || HasB(d)
  {
    HandleLetters(d);
  }
}
