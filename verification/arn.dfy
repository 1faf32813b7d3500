/** The EKS cluster ARN pattern `^arn:aws:eks:[[:alnum:]-]+:[[:digit:]]+:cluster/(.*)$`
    as a hand-written matcher. The region run and the account run cannot
    contain `:`, so the pattern has at most one way to match, and the
    matcher finds it by scanning each run to its end. RE2's `.` does not
    match a newline and `$` without the multi-line flag is the end of the
    text, so the captured name holds no newline. */
module Arn {
  import opened Wrappers

  const ArnHead: string := "arn:aws:eks:"
  const ClusterDir: string := "cluster/"

  /** The pieces a matching ARN is made of; `name` is the captured group. */
  datatype ArnParts = ArnParts(region: string, account: string, name: string)

  /** `[[:alnum:]-]`: an ASCII letter, an ASCII digit or a hyphen. */
  predicate IsAlnumOrDash(ch: char)
  {
    ('a' <= ch <= 'z') || ('A' <= ch <= 'Z') || ('0' <= ch <= '9') || ch == '-'
  }

  /** `[[:digit:]]`: an ASCII digit. */
  predicate IsDigit(ch: char)
  {
    '0' <= ch <= '9'
  }

  /** The parts of an ARN the pattern accepts: a non-empty region run, a
      non-empty account number, and a name without a newline. */
  predicate WellFormed(p: ArnParts)
  {
    && |p.region| > 0 && (forall i :: 0 <= i < |p.region| ==> IsAlnumOrDash(p.region[i]))
    && |p.account| > 0 && (forall i :: 0 <= i < |p.account| ==> IsDigit(p.account[i]))
    && '\n' !in p.name
  }

  /** The text of the ARN with the given parts. */
  function Render(p: ArnParts): string
  {
    ArnHead + RenderTail(p)
  }

  /** The text of the ARN after its head. */
  function RenderTail(p: ArnParts): string
  {
    p.region + [':'] + p.account + [':'] + ClusterDir + p.name
  }

  /** The two character classes of the pattern. */
  datatype CharClass = AlnumOrDash | Digit

  predicate InClass(cls: CharClass, ch: char)
  {
    match cls
    case AlnumOrDash => IsAlnumOrDash(ch)
    case Digit => IsDigit(ch)
  }

  /** Length of the longest prefix of `s` whose characters are all in `cls`. */
  function Span(s: string, cls: CharClass): (n: nat)
    ensures n <= |s|
    ensures forall i :: 0 <= i < n ==> InClass(cls, s[i])
    ensures n < |s| ==> !InClass(cls, s[n])
  {
    if s == [] || !InClass(cls, s[0]) then 0 else 1 + Span(s[1..], cls)
  }

  /** Matches `[cls]+` followed by a `:` at the start of `s`: the run and
      the text after the colon. */
  function TakeRun(s: string, cls: CharClass): (r: Option<(string, string)>)
    ensures r.Some? ==> s == r.value.0 + [':'] + r.value.1
    ensures r.Some? ==> |r.value.0| > 0 && forall i :: 0 <= i < |r.value.0| ==> InClass(cls, r.value.0[i])
  {
    var k := Span(s, cls);
    if k == 0 || k == |s| || s[k] != ':' then None
    else
      assert s == s[..k] + [':'] + s[k + 1..];
      Some((s[..k], s[k + 1..]))
  }

  /** A non-empty run followed by a colon is found exactly: the colon is
      in neither class, so the run cannot stop early or run past it. */
  lemma TakeRunExact(a: string, b: string, cls: CharClass)
    requires |a| > 0 && forall i :: 0 <= i < |a| ==> InClass(cls, a[i])
    ensures TakeRun(a + [':'] + b, cls) == Some((a, b))
  {
    var s := a + [':'] + b;
    var k := Span(s, cls);
    assert forall i :: 0 <= i < |a| ==> s[i] == a[i];
    assert s[|a|] == ':';
    assert !InClass(cls, ':');
    assert k == |a|;
    assert s[..k] == a;
    assert s[k + 1..] == b;
  }

  /** The text of the parts after the head, reassembled. */
  lemma RenderTailOf(rest: string, region: string, afterRegion: string,
                     account: string, afterAccount: string, name: string)
    requires rest == region + [':'] + afterRegion
    requires afterRegion == account + [':'] + afterAccount
    requires afterAccount == ClusterDir + name
    ensures RenderTail(ArnParts(region, account, name)) == rest
  {
  }

  /** The captured name is a suffix of the ARN. */
  lemma NameIsSuffix(p: ArnParts)
    ensures |p.name| <= |Render(p)|
    ensures Render(p)[|Render(p)| - |p.name|..] == p.name
  {
    var head := ArnHead + p.region + [':'] + p.account + [':'] + ClusterDir;
    assert Render(p) == head + p.name;
  }

  /** Matches `s` against the ARN pattern; on a match returns its parts,
      whose `name` is the pattern's capture group. */
  function ParseArn(s: string): (r: Option<ArnParts>)
    ensures r.Some? ==> WellFormed(r.value) && Render(r.value) == s
  {
    if !(ArnHead <= s) then None
    else
      var r := ParseArnTail(s[|ArnHead|..]);
      assert s == ArnHead + s[|ArnHead|..];
      r
  }

  /** The pattern after its `arn:aws:eks:` head. */
  function ParseArnTail(rest: string): (r: Option<ArnParts>)
    ensures r.Some? ==> WellFormed(r.value) && RenderTail(r.value) == rest
  {
    match TakeRun(rest, AlnumOrDash)
    case None => None
    case Some((region, afterRegion)) =>
      match TakeRun(afterRegion, Digit)
      case None => None
      case Some((account, afterAccount)) =>
        if !(ClusterDir <= afterAccount) then None
        else
          var name := afterAccount[|ClusterDir|..];
          if '\n' in name then None
          else
            assert afterAccount == ClusterDir + name;
            RenderTailOf(rest, region, afterRegion, account, afterAccount, name);
            Some(ArnParts(region, account, name))
  }

  /** Every well-formed ARN tail matches with exactly its own parts. */
  lemma ParseArnTailComplete(p: ArnParts)
    requires WellFormed(p)
    ensures ParseArnTail(RenderTail(p)) == Some(p)
  {
    var afterAccount := ClusterDir + p.name;
    var afterRegion := p.account + [':'] + afterAccount;
    assert RenderTail(p) == p.region + [':'] + afterRegion;
    TakeRunExact(p.region, afterRegion, AlnumOrDash);
    TakeRunExact(p.account, afterAccount, Digit);
    assert afterAccount[|ClusterDir|..] == p.name;
  }

  /** Every well-formed ARN matches, with exactly its own parts: the
      matcher accepts the whole language of the pattern and captures the
      name the pattern captures. */
  lemma ParseArnComplete(p: ArnParts)
    requires WellFormed(p)
    ensures ParseArn(Render(p)) == Some(p)
  {
    var s := Render(p);
    assert ArnHead <= s && s[|ArnHead|..] == RenderTail(p);
    ParseArnTailComplete(p);
  }

  /** The matcher succeeds exactly on the texts of well-formed parts. */
  lemma ParseArnIffWellFormed(s: string, p: ArnParts)
    ensures ParseArn(s) == Some(p) <==> WellFormed(p) && Render(p) == s
  {
    if WellFormed(p) && Render(p) == s {
      ParseArnComplete(p);
    }
  }
}
