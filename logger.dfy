/** `ParseLogLevel` from pkg/logger/logger.go: the log level named by a
    string, after `strings.TrimSpace` and `strings.ToLower` (both restricted
    to ASCII here). */
module Logger {

  /** The four `slog` levels the parser can produce. */
  datatype Level = Debug | Info | Warn | Error

  /** The ASCII white space `strings.TrimSpace` removes. */
  predicate IsSpace(c: char) {
    c == ' ' || c == '\t' || c == '\n' || c == '\U{0B}' || c == '\U{0C}' || c == '\r'
  }

  predicate AllSpace(s: string) {
    forall i :: 0 <= i < |s| ==> IsSpace(s[i])
  }

  /** Neither end of `s` is white space. */
  predicate IsTrimmed(s: string) {
    s == [] || (!IsSpace(s[0]) && !IsSpace(s[|s| - 1]))
  }

  /** `s` without its leading white space. */
  function TrimLeft(s: string): (r: string)
    ensures |r| <= |s| && r == s[|s| - |r|..]
    ensures AllSpace(s[..|s| - |r|])
    ensures r == [] || !IsSpace(r[0])
  {
    if s != [] && IsSpace(s[0]) then TrimLeft(s[1..]) else s
  }

  /** `s` without its trailing white space. */
  function TrimRight(s: string): (r: string)
    ensures |r| <= |s| && r == s[..|r|]
    ensures AllSpace(s[|r|..])
    ensures r == [] || !IsSpace(r[|r| - 1])
  {
    if s != [] && IsSpace(s[|s| - 1]) then TrimRight(s[..|s| - 1]) else s
  }

  /** `strings.TrimSpace`: the slice of `s` left after removing white space
      at both ends. */
  function TrimSpace(s: string): (r: string)
    ensures IsTrimmed(r) && |r| <= |s|
  {
    TrimRight(TrimLeft(s))
  }

  /** What TrimSpace removes is white space, at the two ends only. */
  lemma TrimSpaceIsSlice(s: string)
    ensures exists k :: PaddedBy(s, k, TrimSpace(s))
  {
    var l := TrimLeft(s);
    var r := TrimRight(l);
    var k := |s| - |l|;
    assert s[k..] == l;
    assert s[k..k + |r|] == r;
    assert s[k + |r|..] == l[|r|..];
    assert AllSpace(s[..k]);
    assert AllSpace(s[k + |r|..]);
    assert k + |r| <= |s|;
    assert PaddedBy(s, k, r);
    assert r == TrimSpace(s);
  }

  /** `s` is `r` with white space before (the first `k` characters) and after. */
  predicate PaddedBy(s: string, k: nat, r: string) {
    k + |r| <= |s| && AllSpace(s[..k]) && s[k..k + |r|] == r && AllSpace(s[k + |r|..])
  }

  /** `unicode.ToLower` on the ASCII letters; every other character is kept. */
  function LowerChar(c: char): (d: char)
    ensures 'A' <= c <= 'Z' ==> 'a' <= d <= 'z' && d as int - c as int == 'a' as int - 'A' as int
    ensures !('A' <= c <= 'Z') ==> d == c
  {
    if 'A' <= c <= 'Z' then (c as int - 'A' as int + 'a' as int) as char else c
  }

  /** `strings.ToLower`, character by character. */
  function ToLower(s: string): (r: string)
    ensures |r| == |s|
    ensures forall i :: 0 <= i < |s| ==> r[i] == LowerChar(s[i])
  {
    if s == [] then [] else [LowerChar(s[0])] + ToLower(s[1..])
  }

  /** The key the switch in ParseLogLevel matches on. */
  function Normalize(s: string): string {
    ToLower(TrimSpace(s))
  }

  function ParseLogLevel(level: string): (l: Level)
    ensures l == Debug <==> Normalize(level) == "debug"
    ensures l == Warn <==> Normalize(level) == "warn" || Normalize(level) == "warning"
    ensures l == Error <==> Normalize(level) == "error"
  {
    var key := Normalize(level);
    if key == "debug" then Debug
    else if key == "warn" || key == "warning" then Warn
    else if key == "error" then Error
    else Info
  }

  /** The lower-case name each level is documented by. */
  function Name(l: Level): string {
    match l
    case Debug => "debug"
    case Info => "info"
    case Warn => "warn"
    case Error => "error"
  }

  lemma TrimmedIsFixed(s: string)
    requires IsTrimmed(s)
    ensures TrimSpace(s) == s
  {
  }

  lemma ToLowerIdempotent(s: string)
    ensures ToLower(ToLower(s)) == ToLower(s)
  {
  }

  lemma LowerKeepsTrimmed(s: string)
    requires IsTrimmed(s)
    ensures IsTrimmed(ToLower(s))
  {
  }

  /** Normalising first changes nothing. */
  lemma NormalizeIdempotent(s: string)
    ensures Normalize(Normalize(s)) == Normalize(s)
  {
    var t := TrimSpace(s);
    LowerKeepsTrimmed(t);
    TrimmedIsFixed(ToLower(t));
    ToLowerIdempotent(t);
  }

  lemma ParseNormalized(s: string)
    ensures ParseLogLevel(Normalize(s)) == ParseLogLevel(s)
  {
    NormalizeIdempotent(s);
  }

  /** Surrounding white space is ignored. */
  lemma {:induction false} TrimPadded(lead: string, w: string, trail: string)
    requires AllSpace(lead) && AllSpace(trail)
    requires w != [] && IsTrimmed(w)
    ensures TrimSpace(lead + w + trail) == w
  {
    assert lead + w + trail == lead + (w + trail);
    assert (w + trail)[0] == w[0];
    TrimLeftPadded(lead, w + trail);
    TrimRightPadded(w, trail);
    assert TrimSpace(lead + w + trail) == TrimRight(w + trail);
  }

  lemma {:induction false} TrimLeftPadded(lead: string, s: string)
    requires AllSpace(lead)
    requires s != [] && !IsSpace(s[0])
    ensures TrimLeft(lead + s) == s
  {
    if lead != [] {
      assert (lead + s)[1..] == lead[1..] + s;
      TrimLeftPadded(lead[1..], s);
    }
  }

  lemma {:induction false} TrimRightPadded(s: string, trail: string)
    requires AllSpace(trail)
    requires s != [] && !IsSpace(s[|s| - 1])
    ensures TrimRight(s + trail) == s
  {
    if trail != [] {
      var n := |trail| - 1;
      assert (s + trail)[..|s + trail| - 1] == s + trail[..n];
      TrimRightPadded(s, trail[..n]);
    }
  }

  /** Every level is recognised by its name, in any letter case and with any
      surrounding white space. */
  lemma ParseIgnoresCaseAndPadding(l: Level, lead: string, word: string, trail: string)
    requires AllSpace(lead) && AllSpace(trail)
    requires ToLower(word) == Name(l)
    ensures ParseLogLevel(lead + word + trail) == l
  {
    var n := Name(l);
    assert |word| == |n| && n[0] == LowerChar(word[0]) && n[|n| - 1] == LowerChar(word[|word| - 1]);
    TrimPadded(lead, word, trail);
  }

  /** Anything that does not normalise to one of the four names, the empty
      string included, is Info. */
  lemma UnknownIsInfo(s: string)
    requires Normalize(s) !in {"debug", "warn", "warning", "error"}
    ensures ParseLogLevel(s) == Info
  {
  }
}
