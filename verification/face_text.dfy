/** Reading the clock face back: the face text is colon-separated fields that give back
    the shown hour, the minutes and, when enabled, the seconds. */
module FaceText {
  import opened Results
  import opened Decimal
  import opened Utilities
  import opened Digital
  import opened Settings
  import opened Clock

  /** The colon-separated fields of a text. */
  function Split(s: string): (fs: seq<string>)
    ensures |fs| >= 1
    decreases |s|
  {
    if |s| == 0 then [""]
    else
      var rest := Split(s[1..]);
      if s[0] == ':' then [""] + rest else [[s[0]] + rest[0]] + rest[1..]
  }

  lemma {:induction false} SplitLastField(a: string)
    requires NoColon(a)
    ensures Split(a) == [a]
    decreases |a|
  {
    if |a| > 0 {
      SplitLastField(a[1..]);
      assert [a[0]] + a[1..] == a;
    }
  }

  lemma {:induction false} SplitField(a: string, b: string)
    requires NoColon(a)
    ensures Split(a + ":" + b) == [a] + Split(b)
    decreases |a|
  {
    var s := a + ":" + b;
    if |a| == 0 {
      assert s == ":" + b;
      assert s[1..] == b;
    } else {
      assert s[0] == a[0];
      assert s[1..] == a[1..] + ":" + b;
      SplitField(a[1..], b);
      assert [a[0]] + a[1..] == a;
    }
  }

  /** The fields a face shows: hour, minutes and, on a face with seconds, the seconds. */
  datatype Fields = Fields(hour: int, minute: int, second: Option<int>)

  predicate NumberField(f: string) {
    |f| > 0 && AllDigits(f)
  }

  /** Reads a face `H:MM` or `H:MM:SS`; any other text is not a face. */
  function ParseFace(s: string): Option<Fields> {
    var fs := Split(s);
    if |fs| == 2 && NumberField(fs[0]) && NumberField(fs[1]) then
      Some(Fields(ParseDigits(fs[0]), ParseDigits(fs[1]), None))
    else if |fs| == 3 && NumberField(fs[0]) && NumberField(fs[1]) && NumberField(fs[2]) then
      Some(Fields(ParseDigits(fs[0]), ParseDigits(fs[1]), Some(ParseDigits(fs[2]))))
    else None
  }

  lemma DigitsHaveNoColon(s: string)
    requires AllDigits(s)
    ensures NoColon(s)
  {
  }

  /** The fields of the face of a valid time: the hour text, the padded minutes and,
      when seconds are shown, the padded seconds. */
  lemma {:induction false} FaceSplits(opts: Options, t: Time)
    requires t.Valid()
    ensures Split(Face(opts, t))
         == [Text(TwelveHour(opts, t.hours)), ZeroBuffer(t.minutes)]
            + (if opts.seconds then [ZeroBuffer(t.seconds)] else [])
  {
    var hs, ms, ss := Text(TwelveHour(opts, t.hours)), ZeroBuffer(t.minutes), ZeroBuffer(t.seconds);
    DigitsHaveNoColon(hs);
    DigitsHaveNoColon(ms);
    DigitsHaveNoColon(ss);
    if opts.seconds {
      assert Face(opts, t) == hs + ":" + (ms + ":" + ss);
      SplitField(hs, ms + ":" + ss);
      SplitField(ms, ss);
      SplitLastField(ss);
    } else {
      assert Face(opts, t) == hs + ":" + ms;
      SplitField(hs, ms);
      SplitLastField(ms);
    }
  }

  /** For a valid time the face splits into the shown hour, two minute digits and,
      exactly when seconds are enabled, two second digits; reading it gives the time back. */
  lemma FaceRoundTrip(opts: Options, t: Time)
    requires t.Valid()
    ensures |Split(Face(opts, t))| == (if opts.seconds then 3 else 2)
    ensures forall i :: 1 <= i < |Split(Face(opts, t))| ==> |Split(Face(opts, t))[i]| == 2
    ensures ParseFace(Face(opts, t))
         == Some(Fields(TwelveHour(opts, t.hours), t.minutes, if opts.seconds then Some(t.seconds) else None))
  {
    FaceSplits(opts, t);
    TextReadsBack(TwelveHour(opts, t.hours));
  }

  /** The face of a valid time is made of digits and colons only, so it is drawn
      entirely with images, one per character. */
  lemma FaceDrawnWithImages(opts: Options, t: Time)
    requires t.Valid()
    ensures forall i :: 0 <= i < |Face(opts, t)| ==> Pieces(Face(opts, t))[i].Image?
    ensures |Pieces(Face(opts, t))| == |Face(opts, t)|
  {
    var f := Face(opts, t);
    assert AllDigits(Text(TwelveHour(opts, t.hours)));
    assert forall i :: 0 <= i < |f| ==> IsDigit(f[i]) || f[i] == ':';
    AllImages(f);
  }
}
