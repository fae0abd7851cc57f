/** `Color`: a hex colour code and an alpha value turned into normalised RGBA. */
module Colors {
  import opened Wrappers

  datatype ColorError = InvalidHex | InvalidAlpha

  predicate IsHexDigit(ch: char) {
    '0' <= ch <= '9' || 'A' <= ch <= 'F' || 'a' <= ch <= 'f'
  }

  function HexDigitValue(ch: char): (v: nat)
    requires IsHexDigit(ch)
    ensures v < 16
  {
    if '0' <= ch <= '9' then (ch as int - '0' as int)
    else if 'A' <= ch <= 'F' then (ch as int - 'A' as int) + 10
    else (ch as int - 'a' as int) + 10
  }

  /** Six hex digits start at position i of s. */
  ghost predicate HexRunAt(s: string, i: int) {
    0 <= i && i + 6 <= |s| && forall k :: i <= k < i + 6 ==> IsHexDigit(s[k])
  }

  /** The test `/#?([0-9A-Fa-f]){6}/.test(s)`: the pattern is not anchored, so
      it succeeds as soon as six hex digits follow one another anywhere in s
      (the optional '#' never changes the outcome). Scans from the left, as
      the regular-expression engine does. */
  predicate MatchesHexCode(s: string)
    decreases |s|
  {
    |s| >= 6 && ((forall k :: 0 <= k < 6 ==> IsHexDigit(s[k])) || MatchesHexCode(s[1..]))
  }

  /** The scan accepts exactly the strings holding a run of six hex digits. */
  lemma {:induction false} MatchesHexCodeIff(s: string)
    ensures MatchesHexCode(s) <==> exists i :: HexRunAt(s, i)
    decreases |s|
  {
    if |s| >= 6 {
      if forall k :: 0 <= k < 6 ==> IsHexDigit(s[k]) {
        assert HexRunAt(s, 0);
      } else {
        MatchesHexCodeIff(s[1..]);
        if MatchesHexCode(s[1..]) {
          var i :| HexRunAt(s[1..], i);
          assert HexRunAt(s, i + 1);
        } else if exists i :: HexRunAt(s, i) {
          var i :| HexRunAt(s, i);
          if i != 0 {
            assert HexRunAt(s[1..], i - 1);
          }
        }
      }
    }
  }

  /** `toUpperCase` on ASCII letters; every other character is kept. */
  function UpperChar(ch: char): (u: char)
    ensures 'a' <= ch <= 'z' ==> u == (ch as int - 32) as char
    ensures !('a' <= ch <= 'z') ==> u == ch
    ensures IsHexDigit(ch) ==> IsHexDigit(u) && HexDigitValue(u) == HexDigitValue(ch)
  {
    if 'a' <= ch <= 'z' then (ch as int - 'a' as int + 'A' as int) as char else ch
  }

  function Upper(s: string): (u: string)
    ensures |u| == |s| && forall k :: 0 <= k < |s| ==> u[k] == UpperChar(s[k])
  {
    seq(|s|, k requires 0 <= k < |s| => UpperChar(s[k]))
  }

  /** A channel as `parseInt(pair, 16) / 255`. Two hex digits give a level;
      any other pair is where `parseInt` returns NaN or parses a prefix,
      which this model does not reproduce. */
  datatype Channel = Level(value: real) | Unparsed

  datatype Rgba = Rgba(r: Channel, g: Channel, b: Channel, a: real)

  datatype Color = Color(hex: string, rgba: Rgba, value: seq<Channel>)

  function PairChannel(hi: char, lo: char): (c: Channel)
    ensures IsHexDigit(hi) && IsHexDigit(lo) <==> c.Level?
    ensures c.Level? ==> 0.0 <= c.value <= 1.0
    ensures c.Level? ==> c.value * 255.0 == (16 * HexDigitValue(hi) + HexDigitValue(lo)) as real
  {
    if IsHexDigit(hi) && IsHexDigit(lo) then
      Level((16 * HexDigitValue(hi) + HexDigitValue(lo)) as real / 255.0)
    else
      Unparsed
  }

  /** The input with a run of six hex digits is at least six long and, if it
      starts with '#', at least seven. */
  lemma MatchLength(s: string)
    requires MatchesHexCode(s)
    ensures |s| >= 6 && (s[0] == '#' ==> |s| >= 7)
  {
    MatchesHexCodeIff(s);
    var i :| HexRunAt(s, i);
    if s[0] == '#' {
      assert !IsHexDigit(s[0]);
      assert i >= 1;
    }
  }

  /** `new Color(hex, alpha = 1)`: rejects an input without six consecutive
      hex digits, then an alpha outside [0, 1]; stores the upper-cased code
      with a leading '#', the channels of its first three digit pairs over
      255, and alpha. */
  function NewColor(hex: string, alpha: real := 1.0): (r: Result<Color, ColorError>)
    ensures r.Failure? <==> !MatchesHexCode(hex) || alpha < 0.0 || alpha > 1.0
    ensures r.Failure? ==> r.error == if !MatchesHexCode(hex) then InvalidHex else InvalidAlpha
    ensures r.Success? ==> r.value.hex == (if hex[0] == '#' then Upper(hex) else "#" + Upper(hex))
    ensures r.Success? ==> |r.value.hex| >= 7 && r.value.hex[0] == '#'
    ensures r.Success? ==> r.value.rgba.r == PairChannel(r.value.hex[1], r.value.hex[2])
    ensures r.Success? ==> r.value.rgba.g == PairChannel(r.value.hex[3], r.value.hex[4])
    ensures r.Success? ==> r.value.rgba.b == PairChannel(r.value.hex[5], r.value.hex[6])
    ensures r.Success? ==> r.value.rgba.a == alpha
    ensures r.Success? ==> r.value.value == [r.value.rgba.r, r.value.rgba.g, r.value.rgba.b, Level(alpha)]
  {
    if !MatchesHexCode(hex) then Failure(InvalidHex)
    else if alpha < 0.0 || alpha > 1.0 then Failure(InvalidAlpha)
    else
      MatchLength(hex);
      var code := if hex[0] == '#' then Upper(hex) else "#" + Upper(hex);
      var rgba := Rgba(
        PairChannel(code[1], code[2]),
        PairChannel(code[3], code[4]),
        PairChannel(code[5], code[6]),
        alpha);
      Success(Color(code, rgba, [rgba.r, rgba.g, rgba.b, Level(alpha)]))
  }

  /** A well-formed code: an optional '#' followed by exactly six hex digits. */
  ghost predicate WellFormedCode(s: string) {
    || (|s| == 6 && HexRunAt(s, 0))
    || (|s| == 7 && s[0] == '#' && HexRunAt(s, 1))
  }

  /** For a well-formed code every channel is a level in [0, 1] and, scaled
      by 255, gives back the value of its two hex digits. */
  lemma {:induction false} WellFormedChannels(s: string, alpha: real)
    requires WellFormedCode(s) && 0.0 <= alpha <= 1.0
    ensures NewColor(s, alpha).Success?
    ensures var c := NewColor(s, alpha).value;
      var d := if s[0] == '#' then s[1..] else s;
      && c.hex == "#" + Upper(d)
      && c.rgba.r.Level? && c.rgba.g.Level? && c.rgba.b.Level?
      && c.rgba.r.value * 255.0 == (16 * HexDigitValue(d[0]) + HexDigitValue(d[1])) as real
      && c.rgba.g.value * 255.0 == (16 * HexDigitValue(d[2]) + HexDigitValue(d[3])) as real
      && c.rgba.b.value * 255.0 == (16 * HexDigitValue(d[4]) + HexDigitValue(d[5])) as real
      && 0.0 <= c.rgba.r.value <= 1.0 && 0.0 <= c.rgba.g.value <= 1.0 && 0.0 <= c.rgba.b.value <= 1.0
  {
    var d := if s[0] == '#' then s[1..] else s;
    assert HexRunAt(d, 0);
    assert HexRunAt(s, if s[0] == '#' then 1 else 0);
    MatchesHexCodeIff(s);
    var code := NewColor(s, alpha).value.hex;
    assert code == "#" + Upper(d) by {
      if s[0] == '#' {
        assert s == ['#'] + d;
        assert Upper(s) == [UpperChar('#')] + Upper(d);
      }
    }
    assert forall k :: 0 <= k < 6 ==> code[k + 1] == UpperChar(d[k]);
  }

  /** The code test is not anchored: text around the six digits is accepted,
      and a pair that is not two hex digits is left unparsed. */
  lemma LooseCodeExamples()
    ensures NewColor("zz123456").Success?
    ensures NewColor("zz123456").value.hex == "#ZZ123456"
    ensures NewColor("zz123456").value.rgba.r == Unparsed
  {
    assert HexRunAt("zz123456", 2);
    MatchesHexCodeIff("zz123456");
  }

  /** A code with too few digits and an alpha above 1 are refused; a
      well-formed code is accepted. */
  lemma CodeCheckExamples()
    ensures NewColor("#FF8800").Success?
    ensures NewColor("12345").Failure?
    ensures NewColor("#abcdef", 1.5) == Failure(InvalidAlpha)
  {
    assert HexRunAt("#FF8800", 1);
    MatchesHexCodeIff("#FF8800");
    assert HexRunAt("#abcdef", 1);
    MatchesHexCodeIff("#abcdef");
  }
}
