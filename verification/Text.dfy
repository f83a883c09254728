/** The parts of Python's `str` the program relies on: `strip`, `join`, prefixes. */
module Text {

  /** The characters `str.strip()` removes: Unicode white space and the four separators. */
  predicate IsSpace(c: char) {
    || '\t' <= c <= '\r'
    || '\U{001C}' <= c <= ' '
    || c == '\U{0085}' || c == '\U{00A0}' || c == '\U{1680}'
    || '\U{2000}' <= c <= '\U{200A}'
    || c == '\U{2028}' || c == '\U{2029}' || c == '\U{202F}' || c == '\U{205F}' || c == '\U{3000}'
  }

  function StripLeft(s: string): string {
    if s != "" && IsSpace(s[0]) then StripLeft(s[1..]) else s
  }

  function StripRight(s: string): string {
    if s != "" && IsSpace(s[|s| - 1]) then StripRight(s[..|s| - 1]) else s
  }

  function Strip(s: string): string {
    StripRight(StripLeft(s))
  }

  /** No white space at either end. */
  predicate Trimmed(s: string) {
    s == "" || (!IsSpace(s[0]) && !IsSpace(s[|s| - 1]))
  }

  function Join(separator: string, parts: seq<string>): string {
    if parts == [] then ""
    else if |parts| == 1 then parts[0]
    else parts[0] + separator + Join(separator, parts[1..])
  }

  function Concat(parts: seq<string>): string {
    if parts == [] then "" else parts[0] + Concat(parts[1..])
  }

  // ---------------------------------------------------------------- laws

  lemma {:induction false} StripRightEnds(s: string)
    ensures var r := StripRight(s); r <= s && (r == "" || !IsSpace(r[|r| - 1]))
  {
    if s != "" && IsSpace(s[|s| - 1]) {
      StripRightEnds(s[..|s| - 1]);
    }
  }

  lemma {:induction false} StripLeftEnds(s: string)
    ensures var r := StripLeft(s); r == "" || !IsSpace(r[0])
  {
    if s != "" && IsSpace(s[0]) {
      StripLeftEnds(s[1..]);
    }
  }

  /** `strip` returns a trimmed string, and changes nothing exactly when there is nothing to remove. */
  lemma StripTrims(s: string)
    ensures Trimmed(Strip(s))
    ensures Strip(s) == s <==> Trimmed(s)
  {
    StripLeftEnds(s);
    StripRightEnds(StripLeft(s));
  }

  lemma {:induction false} ConcatAppend(a: seq<string>, b: seq<string>)
    ensures Concat(a + b) == Concat(a) + Concat(b)
  {
    if a == [] {
      assert a + b == b;
    } else {
      assert (a + b)[1..] == a[1..] + b;
      ConcatAppend(a[1..], b);
    }
  }

  /** A concatenation is empty exactly when every part is. */
  lemma {:induction false} ConcatEmpty(parts: seq<string>)
    ensures Concat(parts) == "" <==> forall p | p in parts :: p == ""
  {
    if parts != [] {
      ConcatEmpty(parts[1..]);
      if Concat(parts) == "" {
        assert parts[0] == "" && Concat(parts[1..]) == "";
        forall p | p in parts ensures p == "" {
          var i :| 0 <= i < |parts| && parts[i] == p;
          if i > 0 {
            assert p == parts[1..][i - 1];
            assert p in parts[1..];
          }
        }
      } else if forall p | p in parts :: p == "" {
        assert parts[0] in parts;
        assert forall p | p in parts[1..] :: p in parts;
      }
    }
  }

  // ---------------------------------------------------------------- what `strip` and `join` return

  predicate Blank(s: string) {
    forall i | 0 <= i < |s| :: IsSpace(s[i])
  }

  /** `raw` is white space, then `core`, then white space. */
  predicate CoreAt(raw: string, core: string, at: nat) {
    at + |core| <= |raw| && raw[at..at + |core|] == core && Blank(raw[..at]) && Blank(raw[at + |core|..])
  }

  /** `raw` is one trimmed, non-empty core between white space. */
  ghost predicate Around(raw: string, core: string) {
    core != "" && Trimmed(core) && exists at: nat :: CoreAt(raw, core, at)
  }

  /** The characters Python calls white space, one by one. */
  lemma SpaceCharacters(c: char)
    ensures IsSpace(c) <==>
            (|| c in "\t\n\U{000B}\U{000C}\r\U{001C}\U{001D}\U{001E}\U{001F} \U{0085}\U{00A0}\U{1680}"
             || c in "\U{2000}\U{2001}\U{2002}\U{2003}\U{2004}\U{2005}\U{2006}\U{2007}\U{2008}\U{2009}\U{200A}"
             || c in "\U{2028}\U{2029}\U{202F}\U{205F}\U{3000}")
  {
  }

  lemma {:induction false} LeftOf(s: string, at: nat)
    requires at <= |s| && Blank(s[..at]) && (at < |s| ==> !IsSpace(s[at]))
    ensures StripLeft(s) == s[at..]
  {
    if at > 0 {
      assert IsSpace(s[..at][0]);
      assert s[1..][..at - 1] == s[..at][1..];
      LeftOf(s[1..], at - 1);
    }
  }

  lemma {:induction false} RightOf(s: string, end: nat)
    requires end <= |s| && Blank(s[end..]) && (end > 0 ==> !IsSpace(s[end - 1]))
    ensures StripRight(s) == s[..end]
  {
    if end < |s| {
      assert IsSpace(s[end..][|s| - 1 - end]);
      assert s[..|s| - 1][end..] == s[end..][..|s| - 1 - end];
      RightOf(s[..|s| - 1], end);
      assert s[..|s| - 1][..end] == s[..end];
    } else {
      assert s[..end] == s;
    }
  }

  lemma {:induction false} LeftAt(s: string) returns (at: nat)
    ensures at <= |s| && Blank(s[..at]) && StripLeft(s) == s[at..]
  {
    if s != "" && IsSpace(s[0]) {
      var most := LeftAt(s[1..]);
      at := most + 1;
      assert s[..at] == [s[0]] + s[1..][..most];
    } else {
      at := 0;
    }
  }

  lemma {:induction false} RightAt(s: string) returns (end: nat)
    ensures end <= |s| && Blank(s[end..]) && StripRight(s) == s[..end]
  {
    if s != "" && IsSpace(s[|s| - 1]) {
      end := RightAt(s[..|s| - 1]);
      assert s[end..] == s[..|s| - 1][end..] + [s[|s| - 1]];
    } else {
      end := |s|;
    }
  }

  /** `strip` returns the core between the white space, and there is only one. */
  lemma StripIsCore(raw: string, core: string)
    ensures Around(raw, core) <==> core != "" && Strip(raw) == core
  {
    if Around(raw, core) {
      var at: nat :| CoreAt(raw, core, at);
      assert raw[at] == core[0] && raw[at + |core| - 1] == core[|core| - 1];
      LeftOf(raw, at);
      assert raw[at..][|core|..] == raw[at + |core|..];
      RightOf(raw[at..], |core|);
    }
    if core != "" && Strip(raw) == core {
      StripTrims(raw);
      var at := LeftAt(raw);
      var end := RightAt(raw[at..]);
      assert raw[at..][end..] == raw[at + |core|..];
      assert CoreAt(raw, core, at);
    }
  }

  /** `strip` leaves nothing exactly when there is nothing but white space. */
  lemma StripBlankExactly(raw: string)
    ensures Strip(raw) == "" <==> Blank(raw)
  {
    if Blank(raw) {
      assert raw[..|raw|] == raw;
      LeftOf(raw, |raw|);
    }
    if Strip(raw) == "" {
      var at := LeftAt(raw);
      var end := RightAt(raw[at..]);
      assert raw[at..][end..] == raw[at..];
      assert raw == raw[..at] + raw[at..];
    }
  }

  /** Where part `k` begins when the parts are laid out with a separator between them. */
  function Offset(separator: string, parts: seq<string>, k: nat): nat
    requires k <= |parts|
  {
    if k == 0 then 0 else Offset(separator, parts, k - 1) + |parts[k - 1]| + |separator|
  }

  /** Part `k` lies at its offset, with the separator in front of all but the first. */
  predicate PartLies(text: string, separator: string, parts: seq<string>, k: nat)
    requires k < |parts|
  {
    var at := Offset(separator, parts, k);
    && at + |parts[k]| <= |text| && text[at..at + |parts[k]|] == parts[k]
    && (k > 0 ==> at >= |separator| && text[at - |separator|..at] == separator)
  }

  /** The text is the parts in order, the separator between them, and nothing else. */
  ghost predicate LaidOut(text: string, separator: string, parts: seq<string>) {
    && (parts == [] ==> text == "")
    && (parts != [] ==> |text| + |separator| == Offset(separator, parts, |parts|))
    && forall k: nat {:trigger PartLies(text, separator, parts, k)} | k < |parts| :: PartLies(text, separator, parts, k)
  }

  lemma {:induction false} OffsetTail(separator: string, parts: seq<string>, k: nat)
    requires 1 <= k <= |parts|
    ensures Offset(separator, parts, k) == |parts[0]| + |separator| + Offset(separator, parts[1..], k - 1)
  {
    if k > 1 {
      OffsetTail(separator, parts, k - 1);
    }
  }

  lemma {:induction false} JoinLaysOut(separator: string, parts: seq<string>)
    ensures LaidOut(Join(separator, parts), separator, parts)
  {
    if |parts| == 1 {
      assert Offset(separator, parts, 1) == |parts[0]| + |separator|;
      assert PartLies(Join(separator, parts), separator, parts, 0);
    } else if parts != [] {
      JoinLaysOut(separator, parts[1..]);
      OffsetTail(separator, parts, |parts|);
      var rest := Join(separator, parts[1..]);
      forall k: nat | k < |parts|
        ensures PartLies(parts[0] + separator + rest, separator, parts, k)
      {
        if k > 0 {
          OffsetTail(separator, parts, k);
          assert PartLies(rest, separator, parts[1..], k - 1);
          PartLiesLater(separator, parts, rest, k);
        }
      }
    }
  }

  lemma PartLiesLater(separator: string, parts: seq<string>, rest: string, k: nat)
    requires 0 < k < |parts| && PartLies(rest, separator, parts[1..], k - 1)
    requires Offset(separator, parts, k) == |parts[0]| + |separator| + Offset(separator, parts[1..], k - 1)
    ensures PartLies(parts[0] + separator + rest, separator, parts, k)
  {
    var text, head := parts[0] + separator + rest, |parts[0]| + |separator|;
    var at := Offset(separator, parts[1..], k - 1);
    assert text[head + at..head + at + |parts[k]|] == rest[at..at + |parts[k]|];
    if k > 1 {
      assert text[head + at - |separator|..head + at] == rest[at - |separator|..at];
    }
  }

  /** `"".join` lays the parts out with nothing between them. */
  lemma {:induction false} ConcatLaysOut(parts: seq<string>)
    ensures LaidOut(Concat(parts), "", parts)
  {
    ConcatIsJoin(parts);
    JoinLaysOut("", parts);
  }

  lemma {:induction false} ConcatIsJoin(parts: seq<string>)
    ensures Concat(parts) == Join("", parts)
  {
    if |parts| == 1 {
      assert Concat(parts[1..]) == "";
    } else if parts != [] {
      ConcatIsJoin(parts[1..]);
    }
  }
}
