/** The known-hosts decision: the presented host key is looked up under each
    alias of the host in turn, and the first answer other than "not found"
    decides. */
module KnownHosts {

  /** What a known-hosts lookup of one alias answers for the presented key. */
  datatype Verdict = Match | Mismatch | NotFound | CheckFailed

  /** `check_hosts`. `check` is the known-hosts store's lookup of the
      presented key under an alias. */
  function CheckHosts(check: string -> Verdict, aliases: seq<string>): (r: Verdict)
    ensures r == NotFound <==> forall i :: 0 <= i < |aliases| ==> check(aliases[i]) == NotFound
    ensures r != NotFound ==> exists i :: 0 <= i < |aliases| && check(aliases[i]) == r
  {
    if |aliases| == 0 then NotFound
    else if check(aliases[0]) != NotFound then check(aliases[0])
    else CheckHosts(check, aliases[1..])
  }

  /** The first alias whose lookup is not `NotFound` decides, whatever
      follows it. */
  lemma {:induction false} FirstAnswerDecides(check: string -> Verdict, before: seq<string>, a: string, after: seq<string>)
    requires forall i :: 0 <= i < |before| ==> check(before[i]) == NotFound
    requires check(a) != NotFound
    ensures CheckHosts(check, before + [a] + after) == check(a)
  {
    if before != [] {
      assert (before + [a] + after)[1..] == before[1..] + [a] + after;
      FirstAnswerDecides(check, before[1..], a, after);
    }
  }

  /** No alias after the deciding one is consulted: two stores that answer
      alike up to and including the deciding alias give the same result,
      however they answer for the aliases after it. */
  lemma {:induction false} LaterAliasesNotConsulted(check: string -> Verdict, other: string -> Verdict, aliases: seq<string>, k: nat)
    requires k < |aliases|
    requires forall i :: 0 <= i < k ==> check(aliases[i]) == NotFound
    requires check(aliases[k]) != NotFound
    requires forall i :: 0 <= i <= k ==> other(aliases[i]) == check(aliases[i])
    ensures CheckHosts(check, aliases) == CheckHosts(other, aliases) == check(aliases[k])
  {
    assert aliases == aliases[..k] + [aliases[k]] + aliases[k + 1..];
    FirstAnswerDecides(check, aliases[..k], aliases[k], aliases[k + 1..]);
    FirstAnswerDecides(other, aliases[..k], aliases[k], aliases[k + 1..]);
  }

  /** Alias order decides between conflicting answers: an earlier `Match`
      wins over a later `Mismatch`, and an earlier `Mismatch` over a later
      `Match`. */
  lemma OrderDecides(check: string -> Verdict, a: string, b: string)
    requires check(a) == Match && check(b) == Mismatch
    ensures CheckHosts(check, [a, b]) == Match
    ensures CheckHosts(check, [b, a]) == Mismatch
  {
    FirstAnswerDecides(check, [], a, [b]);
    FirstAnswerDecides(check, [], b, [a]);
  }
}
