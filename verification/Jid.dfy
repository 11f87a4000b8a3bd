/** Addresses as both servers handle them: strings cut at the first '/' and the first '@'. */
module Jid {

  /** The position of the first `c` in `s`, or -1 (`strings.Index`, `strchr`). */
  function IndexOf(s: string, c: char): (i: int)
    ensures -1 <= i < |s|
    ensures i >= 0 ==> s[i] == c && c !in s[..i]
    ensures i < 0 ==> c !in s
  {
    if s == [] then -1
    else if s[0] == c then 0
    else
      var rest := IndexOf(s[1..], c);
      assert s == [s[0]] + s[1..];
      if rest < 0 then -1
      else
        assert s[..rest + 1] == [s[0]] + s[1..][..rest];
        rest + 1
  }

  function Bare(jid: string): string {
    var i := IndexOf(jid, '/');
    if i >= 0 then jid[..i] else jid
  }

  function LocalPart(jid: string): string {
    var i := IndexOf(jid, '@');
    if i >= 0 then jid[..i] else jid
  }

  function Join(local: string, domain: string): string {
    local + "@" + domain
  }

  function Full(local: string, domain: string, resource: string): string {
    if resource == "" then Join(local, domain) else Join(local, domain) + "/" + resource
  }

  /** What account creation guarantees of a name, as far as addresses are concerned. */
  predicate ValidName(local: string) {
    local != "" && '@' !in local && '/' !in local
  }

  predicate ValidDomain(domain: string) {
    domain != "" && '/' !in domain
  }

  lemma IndexOfFirst(s: string, c: char, k: nat)
    requires k < |s| && s[k] == c && c !in s[..k]
    ensures IndexOf(s, c) == k
  {
    var i := IndexOf(s, c);
    assert s[k] in s;
    assert forall m | 0 <= m < k :: s[..k][m] != c;
    assert forall m | 0 <= m < i :: s[..i][m] != c;
  }

  /** Cutting undoes joining, for every name an account can have. */
  lemma CutJoined(local: string, domain: string, resource: string)
    requires ValidName(local) && ValidDomain(domain)
    ensures LocalPart(Join(local, domain)) == local
    ensures Bare(Join(local, domain)) == Join(local, domain)
    ensures Bare(Full(local, domain, resource)) == Join(local, domain)
  {
    var bare := Join(local, domain);
    assert bare[..|local|] == local;
    IndexOfFirst(bare, '@', |local|);
    assert '/' !in bare;
    if resource != "" {
      var full := Full(local, domain, resource);
      assert full[..|bare|] == bare;
      IndexOfFirst(full, '/', |bare|);
    }
  }

  lemma JoinInjective(a: string, b: string, domain: string)
    requires Join(a, domain) == Join(b, domain)
    ensures a == b
  {
    assert |a| == |b|;
    assert a == Join(a, domain)[..|a|] == Join(b, domain)[..|b|] == b;
  }

  lemma BareIdempotent(jid: string)
    ensures Bare(Bare(jid)) == Bare(jid)
    ensures '/' !in Bare(jid)
  {
  }
}
