/**
 * The XAML writer of the style editor: it turns a style, its setters, its
 * animations, their keyframes and the keyframes' setters into XAML text, one
 * element per line, indenting each level by one more copy of the tab. A
 * missing collection writes nothing; property names, values and the selector
 * are copied verbatim, without any XML escaping. A string builder's lines are
 * modelled as a sequence of strings, each line ending where the builder
 * would append a newline.
 */
module ViewModelConverter {
  import opened Wrappers
  import opened Clocks

  /** A setter of a style or a keyframe; a missing property or value prints as nothing. */
  datatype Setter = Setter(property: Option<string>, value: Option<string>)

  /** A keyframe: its key time in ticks and its setters, if any. */
  datatype KeyFrameVM = KeyFrameVM(keyTime: int, setters: Option<seq<Setter>>)

  /** An animation: delay and duration in ticks, and its keyframes, if any. */
  datatype AnimationVM = AnimationVM(delay: int, duration: int, keyFrames: Option<seq<KeyFrameVM>>)

  /** A style: its selector, its setters and its animations, each of which may be missing. */
  datatype StyleVM = StyleVM(selector: Option<string>, setters: Option<seq<Setter>>, animations: Option<seq<AnimationVM>>)

  /** String interpolation prints a missing string as the empty string. */
  function Text(s: Option<string>): string
  {
    if s.Some? then s.value else ""
  }

  /** A missing collection is walked as an empty one. */
  function Items<T>(items: Option<seq<T>>): seq<T>
  {
    if items.Some? then items.value else []
  }

  // ---------------------------------------------------------------------
  // TimeSpan.ToString(): the constant format [-][d.]hh:mm:ss[.fffffff]

  predicate IsDigit(c: char)
  {
    '0' <= c <= '9'
  }

  function Digit(d: int): (c: char)
    requires 0 <= d < 10
    ensures IsDigit(c)
  {
    (d + '0' as int) as char
  }

  /** The decimal digits of n, without leading zeros. */
  function Decimal(n: nat): (r: string)
    ensures |r| >= 1
    ensures forall i :: 0 <= i < |r| ==> IsDigit(r[i])
    decreases n
  {
    if n < 10 then [Digit(n)] else Decimal(n / 10) + [Digit(n % 10)]
  }

  function Zeros(k: nat): (r: string)
    ensures |r| == k && forall i :: 0 <= i < k ==> r[i] == '0'
  {
    seq(k, i => '0')
  }

  /** The decimal digits of n, padded on the left with zeros to at least the given width. */
  function Padded(n: nat, width: nat): (r: string)
    ensures |r| >= width
    ensures forall i :: 0 <= i < |r| ==> IsDigit(r[i])
  {
    var digits := Decimal(n);
    if |digits| >= width then digits else Zeros(width - |digits|) + digits
  }

  /** The number a string of decimal digits denotes, read left to right. */
  function DigitsValue(s: string): nat
    requires forall i :: 0 <= i < |s| ==> IsDigit(s[i])
  {
    if |s| == 0 then 0
    else
      assert IsDigit(s[|s| - 1]);
      10 * DigitsValue(s[..|s| - 1]) + (s[|s| - 1] as int - '0' as int)
  }

  /** Reading the printed digits back gives the number, and only zero starts with a zero. */
  lemma {:induction false} DecimalValue(n: nat)
    ensures DigitsValue(Decimal(n)) == n
    ensures Decimal(n)[0] == '0' <==> n == 0
    decreases n
  {
    if n >= 10 {
      DecimalValue(n / 10);
      var r := Decimal(n);
      assert r[..|r| - 1] == Decimal(n / 10);
    }
  }

  /** Leading zeros do not change the value read back. */
  lemma {:induction false} ZerosPrefixValue(k: nat, digits: string)
    requires forall i :: 0 <= i < |digits| ==> IsDigit(digits[i])
    ensures DigitsValue(Zeros(k) + digits) == DigitsValue(digits)
    decreases |digits|
  {
    if |digits| == 0 {
      ZerosValue(k);
      assert Zeros(k) + digits == Zeros(k);
    } else {
      var last := |digits| - 1;
      ZerosPrefixValue(k, digits[..last]);
      assert (Zeros(k) + digits)[..|Zeros(k) + digits| - 1] == Zeros(k) + digits[..last];
    }
  }

  lemma {:induction false} ZerosValue(k: nat)
    ensures DigitsValue(Zeros(k)) == 0
  {
    if k > 0 {
      ZerosValue(k - 1);
      assert Zeros(k)[..k - 1] == Zeros(k - 1);
    }
  }

  /** Padding keeps the value: the padded digits read back as the number. */
  lemma PaddedValue(n: nat, width: nat)
    ensures DigitsValue(Padded(n, width)) == n
  {
    DecimalValue(n);
    var digits := Decimal(n);
    if |digits| < width {
      ZerosPrefixValue(width - |digits|, digits);
    }
  }

  /** hh:mm:ss, each field two digits. */
  function ClockText(hours: nat, minutes: nat, seconds: nat): (r: string)
    ensures forall i :: 0 <= i < |r| ==> IsDigit(r[i]) || r[i] == ':'
  {
    Padded(hours, 2) + ":" + Padded(minutes, 2) + ":" + Padded(seconds, 2)
  }

  /** The fraction of a second: nothing when zero, else a point and seven digits. */
  function FractionText(fraction: nat): (r: string)
    ensures forall i :: 0 <= i < |r| ==> IsDigit(r[i]) || r[i] == '.'
  {
    if fraction != 0 then "." + Padded(fraction, 7) else ""
  }

  /** The whole days: nothing when zero, else the number and a point. */
  function DaysText(days: nat): (r: string)
    ensures forall i :: 0 <= i < |r| ==> IsDigit(r[i]) || r[i] == '.'
  {
    if days != 0 then Decimal(days) + "." else ""
  }

  /** TimeSpan's default text: a minus sign, days if any, hh:mm:ss, and seven fraction digits if any. */
  function FormatTimeSpan(ticks: int): (r: string)
    ensures forall i :: 0 <= i < |r| ==> IsDigit(r[i]) || r[i] == ':' || r[i] == '.' || r[i] == '-'
  {
    var t: nat := if ticks < 0 then -ticks else ticks;
    (if ticks < 0 then "-" else "")
    + DaysText(t / TicksPerDay)
    + ClockText((t / TicksPerHour) % 24, (t / TicksPerMinute) % 60, (t / TicksPerSecond) % 60)
    + FractionText(t % TicksPerSecond)
  }

  /** A formatted TimeSpan never contains a quote, so it cannot end the attribute it is written into. */
  lemma FormatTimeSpanHasNoQuote(ticks: int)
    ensures '"' !in FormatTimeSpan(ticks)
  {
  }

  lemma PaddedDigit(n: nat, width: nat)
    requires n < 10 && 1 <= width
    ensures Padded(n, width) == Zeros(width - 1) + [Digit(n)]
  {
  }

  lemma DecimalTimesTen(n: nat)
    requires 1 <= n
    ensures Decimal(10 * n) == Decimal(n) + "0"
  {
    assert (10 * n) / 10 == n && (10 * n) % 10 == 0;
  }

  lemma ClockTextSmall(seconds: nat)
    requires seconds < 10
    ensures ClockText(0, 0, seconds) == "00:00:0" + [Digit(seconds)]
  {
    PaddedDigit(0, 2);
    PaddedDigit(seconds, 2);
    assert Zeros(1) == "0";
  }

  lemma PaddedHalfSecond()
    ensures Padded(5000000, 7) == "5000000"
  {
    DecimalTimesTen(5);
    DecimalTimesTen(50);
    DecimalTimesTen(500);
    DecimalTimesTen(5000);
    DecimalTimesTen(50000);
    DecimalTimesTen(500000);
  }

  /** Zero and whole seconds print as hh:mm:ss without a fraction. */
  lemma FormatWholeSeconds()
    ensures FormatTimeSpan(0) == "00:00:00"
    ensures FormatTimeSpan(2 * TicksPerSecond) == "00:00:02"
  {
    ClockTextSmall(0);
    ClockTextSmall(2);
    assert FormatTimeSpan(0) == ClockText(0, 0, 0);
    TwoSecondsFields();
    assert FormatTimeSpan(2 * TicksPerSecond) == ClockText(0, 0, 2);
  }

  lemma TwoSecondsFields()
    ensures 20000000 / TicksPerDay == 0 && (20000000 / TicksPerHour) % 24 == 0 && (20000000 / TicksPerMinute) % 60 == 0
    ensures (20000000 / TicksPerSecond) % 60 == 2 && 20000000 % TicksPerSecond == 0
    ensures 2 * TicksPerSecond == 20000000
  {
  }

  /** A fraction of a second prints as seven digits after a point. */
  lemma FormatFraction()
    ensures FormatTimeSpan(15000000) == "00:00:01.5000000"
  {
    OneAndAHalfSecondsFields();
    ClockTextSmall(1);
    PaddedHalfSecond();
    assert FractionText(5000000) == ".5000000";
    assert FormatTimeSpan(15000000) == ClockText(0, 0, 1) + FractionText(5000000);
  }

  lemma OneAndAHalfSecondsFields()
    ensures 15000000 / TicksPerDay == 0 && (15000000 / TicksPerHour) % 24 == 0 && (15000000 / TicksPerMinute) % 60 == 0
    ensures (15000000 / TicksPerSecond) % 60 == 1 && 15000000 % TicksPerSecond == 5000000
  {
  }

  // ---------------------------------------------------------------------
  // The lines each element writes

  /** The setter element, with its property and value as given. */
  function SetterTag(setter: Setter): string
  {
    "<Setter Property=\"" + Text(setter.property) + "\" Value=\"" + Text(setter.value) + "\"/>"
  }

  function SetterLine(indent: string, setter: Setter): string
  {
    indent + SetterTag(setter)
  }

  function SetterLines(indent: string, setters: seq<Setter>): (r: seq<string>)
    ensures |r| == |setters|
    ensures forall i :: 0 <= i < |setters| ==> r[i] == SetterLine(indent, setters[i])
  {
    seq(|setters|, i requires 0 <= i < |setters| => SetterLine(indent, setters[i]))
  }

  lemma SetterLinesSnoc(indent: string, setters: seq<Setter>, j: nat)
    requires j < |setters|
    ensures SetterLines(indent, setters[..j + 1]) == SetterLines(indent, setters[..j]) + [SetterLine(indent, setters[j])]
  {
    var a := SetterLines(indent, setters[..j + 1]);
    var b := SetterLines(indent, setters[..j]) + [SetterLine(indent, setters[j])];
    assert |a| == |b|;
    forall k | 0 <= k < |a| ensures a[k] == b[k] {
      if k < j {
        assert a[k] == SetterLine(indent, setters[k]);
      }
    }
  }

  function KeyFrameTag(keyFrame: KeyFrameVM): string
  {
    "<KeyFrame KeyTime=\"" + FormatTimeSpan(keyFrame.keyTime) + "\">"
  }

  const KeyFrameEnd: string := "</KeyFrame>"

  function KeyFrameOpen(tab: string, keyFrame: KeyFrameVM): string
  {
    tab + tab + tab + KeyFrameTag(keyFrame)
  }

  function KeyFrameClose(tab: string): string
  {
    tab + tab + tab + KeyFrameEnd
  }

  /** A keyframe: its open line, one line per setter, its close line. */
  function KeyFrameLines(tab: string, keyFrame: KeyFrameVM): seq<string>
  {
    [KeyFrameOpen(tab, keyFrame)] + SetterLines(tab + tab + tab + tab, Items(keyFrame.setters)) + [KeyFrameClose(tab)]
  }

  /** The keyframes one after the other, in collection order. */
  function KeyFramesLines(tab: string, keyFrames: seq<KeyFrameVM>): seq<string>
    decreases |keyFrames|
  {
    if |keyFrames| == 0 then []
    else KeyFramesLines(tab, keyFrames[..|keyFrames| - 1]) + KeyFrameLines(tab, keyFrames[|keyFrames| - 1])
  }

  function AnimationTag(animation: AnimationVM): string
  {
    "<Animation Delay=\"" + FormatTimeSpan(animation.delay) + "\" Duration=\"" + FormatTimeSpan(animation.duration) + "\">"
  }

  const AnimationEnd: string := "</Animation>"

  function AnimationOpen(tab: string, animation: AnimationVM): string
  {
    tab + tab + AnimationTag(animation)
  }

  function AnimationClose(tab: string): string
  {
    tab + tab + AnimationEnd
  }

  /** An animation: its open line, its keyframes, its close line. */
  function AnimationLines(tab: string, animation: AnimationVM): seq<string>
  {
    [AnimationOpen(tab, animation)] + KeyFramesLines(tab, Items(animation.keyFrames)) + [AnimationClose(tab)]
  }

  function AnimationsLines(tab: string, animations: seq<AnimationVM>): seq<string>
    decreases |animations|
  {
    if |animations| == 0 then []
    else AnimationsLines(tab, animations[..|animations| - 1]) + AnimationLines(tab, animations[|animations| - 1])
  }

  /** The indentation unit of the style writer: two spaces. */
  const Tab: string := "  "

  function StyleOpen(style: StyleVM): string
  {
    "<Style Selector=\"" + Text(style.selector) + "\" xmlns=\"https://github.com/avaloniaui\">"
  }

  /**
   * A style: its open line, its setters, the animations element around the
   * animations, its close line.
   */
  function StyleLines(style: StyleVM): seq<string>
  {
    [StyleOpen(style)]
    + SetterLines(Tab, Items(style.setters))
    + [Tab + "<Style.Animations>"]
    + AnimationsLines(Tab, Items(style.animations))
    + [Tab + "</Style.Animations>"]
    + ["</Style>"]
  }

  // ---------------------------------------------------------------------
  // The writer, as the source runs it: loops appending to a shared builder

  /** The lines a StringBuilder has been given so far. */
  class LineBuilder {
    var lines: seq<string>

    constructor ()
      ensures lines == []
    {
      lines := [];
    }

    method AppendLine(line: string)
      modifies this
      ensures lines == old(lines) + [line]
    {
      lines := lines + [line];
    }
  }

  /** The setters of a collection, one line each at the given indentation; a missing collection writes nothing. */
  method AppendSetters(setters: Option<seq<Setter>>, sb: LineBuilder, indent: string)
    modifies sb
    ensures sb.lines == old(sb.lines) + SetterLines(indent, Items(setters))
  {
    ghost var start := sb.lines;
    if setters.Some? {
      var items := setters.value;
      for j := 0 to |items|
        invariant sb.lines == start + SetterLines(indent, items[..j])
      {
        SetterLinesSnoc(indent, items, j);
        sb.AppendLine(SetterLine(indent, items[j]));
      }
      assert items[..|items|] == items;
    }
  }

  lemma ConcatAssociates<T>(a: seq<T>, b: seq<T>, c: seq<T>)
    ensures a + (b + c) == (a + b) + c
  {
  }

  lemma KeyFramesLinesSnoc(tab: string, keyFrames: seq<KeyFrameVM>, i: nat)
    requires i < |keyFrames|
    ensures KeyFramesLines(tab, keyFrames[..i + 1]) == KeyFramesLines(tab, keyFrames[..i]) + KeyFrameLines(tab, keyFrames[i])
  {
    assert keyFrames[..i + 1][..i] == keyFrames[..i];
  }

  lemma AnimationsLinesSnoc(tab: string, animations: seq<AnimationVM>, i: nat)
    requires i < |animations|
    ensures AnimationsLines(tab, animations[..i + 1]) == AnimationsLines(tab, animations[..i]) + AnimationLines(tab, animations[i])
  {
    assert animations[..i + 1][..i] == animations[..i];
  }

  /** Writes one keyframe to the builder: the body of the keyframe loop. */
  method KeyFrameToXaml(keyFrame: KeyFrameVM, sb: LineBuilder, tab: string)
    modifies sb
    ensures sb.lines == old(sb.lines) + KeyFrameLines(tab, keyFrame)
  {
    ghost var start := sb.lines;
    sb.AppendLine(KeyFrameOpen(tab, keyFrame));
    AppendSetters(keyFrame.setters, sb, tab + tab + tab + tab);
    ghost var body := sb.lines;
    assert body == start + [KeyFrameOpen(tab, keyFrame)] + SetterLines(tab + tab + tab + tab, Items(keyFrame.setters));
    sb.AppendLine(KeyFrameClose(tab));
    assert sb.lines == body + [KeyFrameClose(tab)];
    ConcatAssociates(start, [KeyFrameOpen(tab, keyFrame)], SetterLines(tab + tab + tab + tab, Items(keyFrame.setters)));
    ConcatAssociates(start, [KeyFrameOpen(tab, keyFrame)] + SetterLines(tab + tab + tab + tab, Items(keyFrame.setters)), [KeyFrameClose(tab)]);
  }

  /** The keyframes of a collection, in order; a missing collection writes nothing. */
  method AppendKeyFrames(keyFrames: Option<seq<KeyFrameVM>>, sb: LineBuilder, tab: string)
    modifies sb
    ensures sb.lines == old(sb.lines) + KeyFramesLines(tab, Items(keyFrames))
  {
    ghost var start := sb.lines;
    if keyFrames.Some? {
      var items := keyFrames.value;
      for i := 0 to |items|
        invariant sb.lines == start + KeyFramesLines(tab, items[..i])
      {
        KeyFramesLinesSnoc(tab, items, i);
        ConcatAssociates(start, KeyFramesLines(tab, items[..i]), KeyFrameLines(tab, items[i]));
        KeyFrameToXaml(items[i], sb, tab);
      }
      assert items[..|items|] == items;
    }
  }

  /** Writes one animation to the builder. */
  method AnimationToXaml(animation: AnimationVM, sb: LineBuilder, tab: string)
    modifies sb
    ensures sb.lines == old(sb.lines) + AnimationLines(tab, animation)
  {
    ghost var start := sb.lines;
    sb.AppendLine(AnimationOpen(tab, animation));
    AppendKeyFrames(animation.keyFrames, sb, tab);
    ghost var body := sb.lines;
    assert body == start + [AnimationOpen(tab, animation)] + KeyFramesLines(tab, Items(animation.keyFrames));
    sb.AppendLine(AnimationClose(tab));
    assert sb.lines == body + [AnimationClose(tab)];
    ConcatAssociates(start, [AnimationOpen(tab, animation)], KeyFramesLines(tab, Items(animation.keyFrames)));
    ConcatAssociates(start, [AnimationOpen(tab, animation)] + KeyFramesLines(tab, Items(animation.keyFrames)), [AnimationClose(tab)]);
  }

  /** The animations of a collection, in order; a missing collection writes nothing. */
  method AppendAnimations(animations: Option<seq<AnimationVM>>, sb: LineBuilder, tab: string)
    modifies sb
    ensures sb.lines == old(sb.lines) + AnimationsLines(tab, Items(animations))
  {
    ghost var start := sb.lines;
    if animations.Some? {
      var items := animations.value;
      for i := 0 to |items|
        invariant sb.lines == start + AnimationsLines(tab, items[..i])
      {
        AnimationsLinesSnoc(tab, items, i);
        ConcatAssociates(start, AnimationsLines(tab, items[..i]), AnimationLines(tab, items[i]));
        AnimationToXaml(items[i], sb, tab);
      }
      assert items[..|items|] == items;
    }
  }

  /** Writes a style as XAML and returns its lines. */
  method StyleToXaml(style: StyleVM) returns (xaml: seq<string>)
    ensures xaml == StyleLines(style)
  {
    var tab := Tab;
    var sb := new LineBuilder();
    sb.AppendLine(StyleOpen(style));
    assert sb.lines == [StyleOpen(style)];
    AppendSetters(style.setters, sb, tab);
    ghost var head := sb.lines;
    sb.AppendLine(tab + "<Style.Animations>");
    assert sb.lines == head + [Tab + "<Style.Animations>"];
    head := sb.lines;
    AppendAnimations(style.animations, sb, tab);
    ghost var body := sb.lines;
    sb.AppendLine(tab + "</Style.Animations>");
    sb.AppendLine("</Style>");
    assert sb.lines == body + [Tab + "</Style.Animations>"] + ["</Style>"];
    xaml := sb.lines;
  }

  // ---------------------------------------------------------------------
  // Properties of the output

  /**
   * The style element opens the text and closes it; the animations element
   * comes right after the style's setters, which are written one per line
   * in collection order, and closes just before the style does.
   */
  lemma StyleLinesFrame(style: StyleVM)
    ensures var lines := StyleLines(style);
      var n := |Items(style.setters)|;
      && |lines| >= 4 + n
      && lines[0] == StyleOpen(style)
      && (forall i :: 0 <= i < n ==> lines[1 + i] == SetterLine(Tab, Items(style.setters)[i]))
      && lines[1 + n] == Tab + "<Style.Animations>"
      && lines[|lines| - 2] == Tab + "</Style.Animations>"
      && lines[|lines| - 1] == "</Style>"
  {
    var head := [StyleOpen(style)] + SetterLines(Tab, Items(style.setters)) + [Tab + "<Style.Animations>"];
    var tail := [Tab + "</Style.Animations>"] + ["</Style>"];
    var lines := head + AnimationsLines(Tab, Items(style.animations)) + tail;
    assert StyleLines(style) == lines;
    assert lines[|lines| - 2] == tail[0] && lines[|lines| - 1] == tail[1];
    assert lines[1 + |Items(style.setters)|] == head[1 + |Items(style.setters)|];
  }

  /** The number of lines a keyframe takes: open, one per setter, close. */
  function KeyFrameLineCount(keyFrame: KeyFrameVM): nat
  {
    2 + |Items(keyFrame.setters)|
  }

  function SumKeyFrameLineCounts(keyFrames: seq<KeyFrameVM>): nat
    decreases |keyFrames|
  {
    if |keyFrames| == 0 then 0 else KeyFrameLineCount(keyFrames[0]) + SumKeyFrameLineCounts(keyFrames[1..])
  }

  /** The number of lines an animation takes: open, its keyframes, close. */
  function AnimationLineCount(animation: AnimationVM): nat
  {
    2 + SumKeyFrameLineCounts(Items(animation.keyFrames))
  }

  function SumAnimationLineCounts(animations: seq<AnimationVM>): nat
    decreases |animations|
  {
    if |animations| == 0 then 0 else AnimationLineCount(animations[0]) + SumAnimationLineCounts(animations[1..])
  }

  lemma {:induction false} SumKeyFrameLineCountsSnoc(keyFrames: seq<KeyFrameVM>)
    requires |keyFrames| > 0
    ensures SumKeyFrameLineCounts(keyFrames)
      == SumKeyFrameLineCounts(keyFrames[..|keyFrames| - 1]) + KeyFrameLineCount(keyFrames[|keyFrames| - 1])
    decreases |keyFrames|
  {
    if |keyFrames| > 1 {
      SumKeyFrameLineCountsSnoc(keyFrames[1..]);
      assert keyFrames[1..][..|keyFrames| - 2] == keyFrames[..|keyFrames| - 1][1..];
    }
  }

  lemma {:induction false} SumAnimationLineCountsSnoc(animations: seq<AnimationVM>)
    requires |animations| > 0
    ensures SumAnimationLineCounts(animations)
      == SumAnimationLineCounts(animations[..|animations| - 1]) + AnimationLineCount(animations[|animations| - 1])
    decreases |animations|
  {
    if |animations| > 1 {
      SumAnimationLineCountsSnoc(animations[1..]);
      assert animations[1..][..|animations| - 2] == animations[..|animations| - 1][1..];
    }
  }

  lemma {:induction false} KeyFramesLineCount(tab: string, keyFrames: seq<KeyFrameVM>)
    ensures |KeyFramesLines(tab, keyFrames)| == SumKeyFrameLineCounts(keyFrames)
    decreases |keyFrames|
  {
    if |keyFrames| > 0 {
      KeyFramesLineCount(tab, keyFrames[..|keyFrames| - 1]);
      SumKeyFrameLineCountsSnoc(keyFrames);
    }
  }

  lemma {:induction false} AnimationsLineCount(tab: string, animations: seq<AnimationVM>)
    ensures |AnimationsLines(tab, animations)| == SumAnimationLineCounts(animations)
    decreases |animations|
  {
    if |animations| > 0 {
      AnimationsLineCount(tab, animations[..|animations| - 1]);
      SumAnimationLineCountsSnoc(animations);
      KeyFramesLineCount(tab, Items(animations[|animations| - 1].keyFrames));
    }
  }

  /** A style takes four lines of its own, one per setter, and the lines of its animations. */
  lemma StyleLineCount(style: StyleVM)
    ensures |StyleLines(style)| == 4 + |Items(style.setters)| + SumAnimationLineCounts(Items(style.animations))
  {
    AnimationsLineCount(Tab, Items(style.animations));
  }

  /**
   * The style of the demo project: selector Rectangle.animation, an opacity
   * setter, and one 2-second animation whose keyframes at 0 s and 2 s take
   * the opacity from 1.0 to 0.0 and the rotation from 0 to 360.
   */
  function DemoStyle(): StyleVM
  {
    var opacity := Setter(Some("Opacity"), Some("1.0"));
    var start := KeyFrameVM(0, Some([opacity, Setter(Some("RotateTransform.Angle"), Some("0"))]));
    var end := KeyFrameVM(2 * TicksPerSecond,
      Some([Setter(Some("Opacity"), Some("0.0")), Setter(Some("RotateTransform.Angle"), Some("360"))]));
    StyleVM(Some("Rectangle.animation"), Some([opacity]),
      Some([AnimationVM(0, 2 * TicksPerSecond, Some([start, end]))]))
  }

  /**
   * The demo style writes fifteen lines: the style's open line and setter,
   * the animations element, the animation, each keyframe's open line, two
   * setters and close line, then the closing lines.
   */
  lemma DemoStyleLineCount()
    ensures var style := DemoStyle();
      var animation := Items(style.animations)[0];
      var start := Items(animation.keyFrames)[0];
      var end := Items(animation.keyFrames)[1];
      var inner := Tab + Tab + Tab + Tab;
      var lines := StyleLines(style);
      && |lines| == 15
      && lines ==
        [StyleOpen(style), SetterLine(Tab, Setter(Some("Opacity"), Some("1.0"))), Tab + "<Style.Animations>", AnimationOpen(Tab, animation)]
        + [KeyFrameOpen(Tab, start),
           SetterLine(inner, Setter(Some("Opacity"), Some("1.0"))),
           SetterLine(inner, Setter(Some("RotateTransform.Angle"), Some("0"))),
           KeyFrameClose(Tab)]
        + [KeyFrameOpen(Tab, end),
           SetterLine(inner, Setter(Some("Opacity"), Some("0.0"))),
           SetterLine(inner, Setter(Some("RotateTransform.Angle"), Some("360"))),
           KeyFrameClose(Tab)]
        + [AnimationClose(Tab), Tab + "</Style.Animations>", "</Style>"]
  {
    DemoShapeLines(DemoStyle());
  }

  /** The lines of a style with one setter and one animation of two keyframes with two setters each. */
  lemma DemoShapeLines(style: StyleVM)
    requires |Items(style.setters)| == 1 && |Items(style.animations)| == 1
    requires var keyFrames := Items(Items(style.animations)[0].keyFrames);
      |keyFrames| == 2 && |Items(keyFrames[0].setters)| == 2 && |Items(keyFrames[1].setters)| == 2
    ensures var animation := Items(style.animations)[0];
      var start := Items(animation.keyFrames)[0];
      var end := Items(animation.keyFrames)[1];
      var inner := Tab + Tab + Tab + Tab;
      var lines := StyleLines(style);
      && |lines| == 15
      && lines ==
        [StyleOpen(style), SetterLine(Tab, Items(style.setters)[0]), Tab + "<Style.Animations>", AnimationOpen(Tab, animation)]
        + [KeyFrameOpen(Tab, start), SetterLine(inner, Items(start.setters)[0]), SetterLine(inner, Items(start.setters)[1]), KeyFrameClose(Tab)]
        + [KeyFrameOpen(Tab, end), SetterLine(inner, Items(end.setters)[0]), SetterLine(inner, Items(end.setters)[1]), KeyFrameClose(Tab)]
        + [AnimationClose(Tab), Tab + "</Style.Animations>", "</Style>"]
  {
    var animation := Items(style.animations)[0];
    var keyFrames := Items(animation.keyFrames);
    KeyFrameLinesOfTwoSetters(Tab, keyFrames[0]);
    KeyFrameLinesOfTwoSetters(Tab, keyFrames[1]);
    KeyFramesLinesOfTwo(Tab, keyFrames);
    StyleLinesOfOneEach(style);
    assert AnimationLines(Tab, animation) ==
      [AnimationOpen(Tab, animation)] + (KeyFrameLines(Tab, keyFrames[0]) + KeyFrameLines(Tab, keyFrames[1])) + [AnimationClose(Tab)];
    Regroup(StyleOpen(style), SetterLine(Tab, Items(style.setters)[0]), Tab + "<Style.Animations>",
      AnimationOpen(Tab, animation), AnimationClose(Tab), Tab + "</Style.Animations>", "</Style>",
      KeyFrameLines(Tab, keyFrames[0]), KeyFrameLines(Tab, keyFrames[1]));
  }

  lemma Regroup<T>(o: T, s: T, ao: T, open: T, close: T, ac: T, sc: T, first: seq<T>, second: seq<T>)
    ensures [o] + [s] + [ao] + ([open] + (first + second) + [close]) + [ac] + [sc]
      == [o, s, ao, open] + first + second + [close, ac, sc]
    ensures |[o, s, ao, open] + first + second + [close, ac, sc]| == 7 + |first| + |second|
  {
  }

  /** The demo style's selector, and the times its animation and keyframes print. */
  lemma DemoStyleText()
    ensures var style := DemoStyle();
      var animation := Items(style.animations)[0];
      && Text(style.selector) == "Rectangle.animation"
      && FormatTimeSpan(animation.delay) == "00:00:00"
      && FormatTimeSpan(animation.duration) == "00:00:02"
      && FormatTimeSpan(Items(animation.keyFrames)[0].keyTime) == "00:00:00"
      && FormatTimeSpan(Items(animation.keyFrames)[1].keyTime) == "00:00:02"
  {
    FormatWholeSeconds();
  }

  lemma KeyFrameLinesOfTwoSetters(tab: string, keyFrame: KeyFrameVM)
    requires |Items(keyFrame.setters)| == 2
    ensures var setters := Items(keyFrame.setters);
      var inner := tab + tab + tab + tab;
      KeyFrameLines(tab, keyFrame) ==
        [KeyFrameOpen(tab, keyFrame), SetterLine(inner, setters[0]), SetterLine(inner, setters[1]), KeyFrameClose(tab)]
  {
  }

  lemma KeyFramesLinesOfTwo(tab: string, keyFrames: seq<KeyFrameVM>)
    requires |keyFrames| == 2
    ensures KeyFramesLines(tab, keyFrames) == KeyFrameLines(tab, keyFrames[0]) + KeyFrameLines(tab, keyFrames[1])
  {
    assert keyFrames[..1][..0] == [];
    assert KeyFramesLines(tab, keyFrames[..1]) == KeyFrameLines(tab, keyFrames[0]);
  }

  lemma AnimationLinesOf(tab: string, animation: AnimationVM)
    ensures AnimationsLines(tab, [animation]) == AnimationLines(tab, animation)
  {
    assert [animation][..0] == [];
  }

  lemma StyleLinesOfOneEach(style: StyleVM)
    requires |Items(style.setters)| == 1 && |Items(style.animations)| == 1
    ensures StyleLines(style) ==
      [StyleOpen(style)] + [SetterLine(Tab, Items(style.setters)[0])] + [Tab + "<Style.Animations>"]
      + AnimationLines(Tab, Items(style.animations)[0])
      + [Tab + "</Style.Animations>"] + ["</Style>"]
  {
    var setters := Items(style.setters);
    var animations := Items(style.animations);
    assert SetterLines(Tab, setters) == [SetterLine(Tab, setters[0])];
    assert animations == [animations[0]];
    AnimationLinesOf(Tab, animations[0]);
  }

  // Indentation

  /** n copies of the tab. */
  function Indent(tab: string, n: nat): string
  {
    if n == 0 then "" else tab + Indent(tab, n - 1)
  }

  lemma IndentUnfolds(tab: string)
    ensures Indent(tab, 1) == tab
    ensures Indent(tab, 2) == tab + tab
    ensures Indent(tab, 3) == tab + tab + tab
    ensures Indent(tab, 4) == tab + tab + tab + tab
  {
    assert Indent(tab, 1) == tab + "";
    assert tab + "" == tab;
  }

  /** A line that starts with a prefix has it as a prefix. */
  lemma StartsWith(prefix: string, rest: string)
    ensures prefix <= prefix + rest
  {
    assert (prefix + rest)[..|prefix|] == prefix;
  }

  /** Every line of a keyframe is indented three tabs deep, and each of its setter lines four. */
  lemma KeyFrameIndentation(tab: string, keyFrame: KeyFrameVM)
    ensures forall line :: line in KeyFrameLines(tab, keyFrame) ==> Indent(tab, 3) <= line
    ensures forall i :: 1 <= i < |KeyFrameLines(tab, keyFrame)| - 1 ==> Indent(tab, 4) <= KeyFrameLines(tab, keyFrame)[i]
  {
    IndentUnfolds(tab);
    var t3 := tab + tab + tab;
    var t4 := tab + tab + tab + tab;
    var setters := SetterLines(t4, Items(keyFrame.setters));
    var lines := KeyFrameLines(tab, keyFrame);
    assert lines == [KeyFrameOpen(tab, keyFrame)] + setters + [KeyFrameClose(tab)];
    forall i | 0 <= i < |lines|
      ensures Indent(tab, 3) <= lines[i]
      ensures 1 <= i < |lines| - 1 ==> Indent(tab, 4) <= lines[i]
    {
      if i == 0 {
        StartsWith(t3, KeyFrameTag(keyFrame));
      } else if i == |lines| - 1 {
        StartsWith(t3, KeyFrameEnd);
      } else {
        assert lines[i] == setters[i - 1];
        SetterLineIndented(t4, Items(keyFrame.setters)[i - 1]);
        StartsWith(t3, tab);
        PrefixTransitive(t3, t4, lines[i]);
      }
    }
  }

  lemma SetterLineIndented(indent: string, setter: Setter)
    ensures indent <= SetterLine(indent, setter)
  {
    StartsWith(indent, SetterTag(setter));
  }

  lemma PrefixTransitive(a: string, b: string, c: string)
    requires a <= b && b <= c
    ensures a <= c
  {
    assert c[..|a|] == b[..|a|];
  }

  lemma {:induction false} KeyFramesIndentation(tab: string, keyFrames: seq<KeyFrameVM>)
    ensures forall line :: line in KeyFramesLines(tab, keyFrames) ==> Indent(tab, 3) <= line
    decreases |keyFrames|
  {
    if |keyFrames| > 0 {
      KeyFramesIndentation(tab, keyFrames[..|keyFrames| - 1]);
      KeyFrameIndentation(tab, keyFrames[|keyFrames| - 1]);
    }
  }

  /** Every line of an animation is indented at least two tabs deep; its keyframes at least three. */
  lemma AnimationIndentation(tab: string, animation: AnimationVM)
    ensures forall line :: line in AnimationLines(tab, animation) ==> Indent(tab, 2) <= line
    ensures forall line :: line in KeyFramesLines(tab, Items(animation.keyFrames)) ==> Indent(tab, 3) <= line
  {
    IndentUnfolds(tab);
    var t2 := tab + tab;
    var keyFrames := KeyFramesLines(tab, Items(animation.keyFrames));
    KeyFramesIndentation(tab, Items(animation.keyFrames));
    StartsWith(t2, tab);
    StartsWith(t2, AnimationTag(animation));
    StartsWith(t2, AnimationEnd);
    var lines := AnimationLines(tab, animation);
    assert lines == [AnimationOpen(tab, animation)] + keyFrames + [AnimationClose(tab)];
    forall line | line in lines
      ensures Indent(tab, 2) <= line
    {
      if line in keyFrames {
        PrefixTransitive(t2, t2 + tab, line);
      }
    }
  }

  // Missing collections

  /** The same tree with every missing collection replaced by an empty one. */
  function NormalizeKeyFrame(keyFrame: KeyFrameVM): KeyFrameVM
  {
    KeyFrameVM(keyFrame.keyTime, Some(Items(keyFrame.setters)))
  }

  function NormalizeKeyFrames(keyFrames: seq<KeyFrameVM>): (r: seq<KeyFrameVM>)
    ensures |r| == |keyFrames| && forall i :: 0 <= i < |keyFrames| ==> r[i] == NormalizeKeyFrame(keyFrames[i])
    decreases |keyFrames|
  {
    if |keyFrames| == 0 then []
    else NormalizeKeyFrames(keyFrames[..|keyFrames| - 1]) + [NormalizeKeyFrame(keyFrames[|keyFrames| - 1])]
  }

  function NormalizeAnimation(animation: AnimationVM): AnimationVM
  {
    AnimationVM(animation.delay, animation.duration, Some(NormalizeKeyFrames(Items(animation.keyFrames))))
  }

  function NormalizeAnimations(animations: seq<AnimationVM>): (r: seq<AnimationVM>)
    ensures |r| == |animations| && forall i :: 0 <= i < |animations| ==> r[i] == NormalizeAnimation(animations[i])
    decreases |animations|
  {
    if |animations| == 0 then []
    else NormalizeAnimations(animations[..|animations| - 1]) + [NormalizeAnimation(animations[|animations| - 1])]
  }

  function NormalizeStyle(style: StyleVM): StyleVM
  {
    StyleVM(style.selector, Some(Items(style.setters)), Some(NormalizeAnimations(Items(style.animations))))
  }

  lemma KeyFrameLinesNormalized(tab: string, keyFrame: KeyFrameVM)
    ensures KeyFrameLines(tab, NormalizeKeyFrame(keyFrame)) == KeyFrameLines(tab, keyFrame)
  {
  }

  lemma AnimationLinesNormalized(tab: string, animation: AnimationVM)
    requires KeyFramesLines(tab, NormalizeKeyFrames(Items(animation.keyFrames))) == KeyFramesLines(tab, Items(animation.keyFrames))
    ensures AnimationLines(tab, NormalizeAnimation(animation)) == AnimationLines(tab, animation)
  {
  }

  lemma {:induction false} NormalizeKeyFramesLines(tab: string, keyFrames: seq<KeyFrameVM>)
    ensures KeyFramesLines(tab, NormalizeKeyFrames(keyFrames)) == KeyFramesLines(tab, keyFrames)
    decreases |keyFrames|
  {
    if |keyFrames| > 0 {
      var n := |keyFrames| - 1;
      var norm := NormalizeKeyFrames(keyFrames);
      assert norm[..n] == NormalizeKeyFrames(keyFrames[..n]);
      NormalizeKeyFramesLines(tab, keyFrames[..n]);
      KeyFrameLinesNormalized(tab, keyFrames[n]);
      assert KeyFramesLines(tab, norm) == KeyFramesLines(tab, norm[..n]) + KeyFrameLines(tab, NormalizeKeyFrame(keyFrames[n]));
    }
  }

  lemma {:induction false} NormalizeAnimationsLines(tab: string, animations: seq<AnimationVM>)
    ensures AnimationsLines(tab, NormalizeAnimations(animations)) == AnimationsLines(tab, animations)
    decreases |animations|
  {
    if |animations| > 0 {
      var n := |animations| - 1;
      var norm := NormalizeAnimations(animations);
      assert norm[..n] == NormalizeAnimations(animations[..n]);
      NormalizeAnimationsLines(tab, animations[..n]);
      NormalizeKeyFramesLines(tab, Items(animations[n].keyFrames));
      AnimationLinesNormalized(tab, animations[n]);
      assert norm[n] == NormalizeAnimation(animations[n]);
      AnimationsLinesUnfold(tab, norm);
      AnimationsLinesUnfold(tab, animations);
    }
  }

  lemma AnimationsLinesUnfold(tab: string, animations: seq<AnimationVM>)
    requires |animations| > 0
    ensures AnimationsLines(tab, animations)
      == AnimationsLines(tab, animations[..|animations| - 1]) + AnimationLines(tab, animations[|animations| - 1])
  {
  }

  /** A missing setter, animation or keyframe collection writes exactly what an empty one would. */
  lemma MissingCollectionsWriteAsEmpty(style: StyleVM)
    ensures StyleLines(NormalizeStyle(style)) == StyleLines(style)
  {
    NormalizeAnimationsLines(Tab, Items(style.animations));
  }

  // Verbatim values

  /**
   * A setter's property and value appear in its line exactly as given, at
   * fixed offsets after the indentation: nothing is escaped.
   */
  lemma SetterLineIsVerbatim(indent: string, setter: Setter)
    ensures var line := SetterLine(indent, setter);
      var p := Text(setter.property);
      var v := Text(setter.value);
      && |line| == |indent| + 18 + |p| + 9 + |v| + 3
      && line[..|indent|] == indent
      && line[|indent| + 18 .. |indent| + 18 + |p|] == p
      && line[|indent| + 18 + |p| + 9 .. |indent| + 18 + |p| + 9 + |v|] == v
  {
    var line := SetterLine(indent, setter);
    var p := Text(setter.property);
    var v := Text(setter.value);
    assert SetterTag(setter) == "<Setter Property=\"" + p + "\" Value=\"" + v + "\"/>";
    assert |"<Setter Property=\""| == 18 && |"\" Value=\""| == 9;
  }
}
