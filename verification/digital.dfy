/** The clock face as digit images: `toDigital` in the clock component. */
module Digital {
  import opened Decimal

  const ImageHead: string := "<img class=\"resize-img\" src=\"./../images/"
  const ImageTail: string := ".png\" />"

  /** The markup of the image file `name.png`. */
  function ImageTag(name: string): string {
    ImageHead + name + ImageTail
  }

  const ColonTag: string := ImageTag("colon")

  /** The first pass of `toDigital`: every decimal digit becomes the image of that digit. */
  function ReplaceDigits(s: string): string
    decreases |s|
  {
    if |s| == 0 then ""
    else (if IsDigit(s[0]) then ImageTag([s[0]]) else [s[0]]) + ReplaceDigits(s[1..])
  }

  /** The second pass of `toDigital`: every colon becomes the colon image. */
  function ReplaceColons(s: string): string
    decreases |s|
  {
    if |s| == 0 then ""
    else (if s[0] == ':' then ColonTag else [s[0]]) + ReplaceColons(s[1..])
  }

  /** `toDigital` as the source writes it: two global replacements, digits first. */
  function ToDigital(time: string): (r: string)
    ensures r == Markup(Pieces(time))
  {
    ToDigitalPerCharacter(time);
    ReplaceColons(ReplaceDigits(time))
  }

  /** One character of the face, as the display shows it. */
  datatype Piece = Image(name: string) | Literal(c: char)

  /** Digits and colons are drawn as images; every other character is kept as text. */
  function PieceOf(c: char): Piece {
    if IsDigit(c) then Image([c]) else if c == ':' then Image("colon") else Literal(c)
  }

  /** The face read left to right, one piece per character. */
  function Pieces(s: string): (ps: seq<Piece>)
    ensures |ps| == |s|
    ensures forall i :: 0 <= i < |s| ==> ps[i] == PieceOf(s[i])
    decreases |s|
  {
    if |s| == 0 then [] else [PieceOf(s[0])] + Pieces(s[1..])
  }

  function PieceMarkup(p: Piece): string {
    match p
    case Image(name) => ImageTag(name)
    case Literal(c) => [c]
  }

  /** The markup of a sequence of pieces, in order. */
  function Markup(ps: seq<Piece>): string
    decreases |ps|
  {
    if |ps| == 0 then "" else PieceMarkup(ps[0]) + Markup(ps[1..])
  }

  /** The character a piece stands for. */
  function CharOf(p: Piece): char {
    match p
    case Literal(c) => c
    case Image(name) => if name == "colon" || |name| == 0 then ':' else name[0]
  }

  function Chars(ps: seq<Piece>): (s: string)
    ensures |s| == |ps|
    ensures forall i :: 0 <= i < |ps| ==> s[i] == CharOf(ps[i])
    decreases |ps|
  {
    if |ps| == 0 then "" else [CharOf(ps[0])] + Chars(ps[1..])
  }

  predicate NoColon(s: string) {
    forall i :: 0 <= i < |s| ==> s[i] != ':'
  }

  lemma {:induction false} ReplaceColonsAppend(a: string, b: string)
    ensures ReplaceColons(a + b) == ReplaceColons(a) + ReplaceColons(b)
    decreases |a|
  {
    if |a| == 0 {
      assert a + b == b;
    } else {
      assert (a + b)[0] == a[0];
      assert (a + b)[1..] == a[1..] + b;
      ReplaceColonsAppend(a[1..], b);
    }
  }

  lemma {:induction false} ReplaceColonsNoColon(s: string)
    requires NoColon(s)
    ensures ReplaceColons(s) == s
    decreases |s|
  {
    if |s| > 0 {
      ReplaceColonsNoColon(s[1..]);
    }
  }

  /** The markup of a digit image holds no colon, so the second pass leaves it intact. */
  lemma DigitTagKeptByColonPass(c: char)
    requires IsDigit(c)
    ensures ReplaceColons(ImageTag([c])) == ImageTag([c])
  {
    assert NoColon(ImageHead);
    assert NoColon(ImageTail);
    assert NoColon(ImageTag([c]));
    ReplaceColonsNoColon(ImageTag([c]));
  }

  /** The two passes of `toDigital` amount to drawing each character on its own:
      each digit and each colon becomes exactly one image, anything else stays. */
  lemma {:induction false} ToDigitalPerCharacter(s: string)
    ensures ReplaceColons(ReplaceDigits(s)) == Markup(Pieces(s))
    decreases |s|
  {
    if |s| > 0 {
      var head := if IsDigit(s[0]) then ImageTag([s[0]]) else [s[0]];
      assert ReplaceDigits(s) == head + ReplaceDigits(s[1..]);
      ReplaceColonsAppend(head, ReplaceDigits(s[1..]));
      if IsDigit(s[0]) {
        DigitTagKeptByColonPass(s[0]);
      }
      assert ReplaceColons(head) == PieceMarkup(PieceOf(s[0]));
      ToDigitalPerCharacter(s[1..]);
      assert Pieces(s)[1..] == Pieces(s[1..]);
    }
  }

  /** No two faces draw the same pieces: reading back the pieces gives the face text. */
  lemma PiecesRoundTrip(s: string)
    ensures Chars(Pieces(s)) == s
  {
  }

  /** A face made only of digits and colons is drawn entirely with images. */
  lemma AllImages(s: string)
    requires forall i :: 0 <= i < |s| ==> IsDigit(s[i]) || s[i] == ':'
    ensures forall i :: 0 <= i < |s| ==> Pieces(s)[i].Image?
  {
  }
}
