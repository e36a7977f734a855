/** Bus subject names and the format used to build them (controller.go, lines 36-42). */
module Naming {

  const DiscoverSubject: string := "_SAT.discover"
  const StatusSubject: string := "_SAT.%s.status"
  const ConfigGetSubject: string := "_SAT.%s.config.get"
  const ConfigUpdateSubject: string := "_SAT.%s.config.put"
  const DefaultQueueGroupName: string := "controllers"

  /** The format of the default config map name (`"%s-config"`). */
  const ConfigMapNameFormat: string := "%s-config"

  /** The four request kinds the controller answers, one handler each. */
  datatype Endpoint = ConfigGet | ConfigUpdate | Status | Discover

  /**
   * `fmt.Sprintf(format, arg)` for the formats of this program, whose only verb
   * is a single `%s`: the first `%s` is replaced by `arg`.
   */
  function Sprintf(format: string, arg: string): (r: string)
    decreases |format|
  {
    if |format| < 2 then format
    else if format[0] == '%' && format[1] == 's' then arg + format[2..]
    else [format[0]] + Sprintf(format[1..], arg)
  }

  /** With one `%s` and no other `%`, Sprintf puts the argument in the verb's place. */
  lemma {:induction false} SprintfOneVerb(pre: string, post: string, arg: string)
    requires '%' !in pre && '%' !in post
    ensures Sprintf(pre + "%s" + post, arg) == pre + arg + post
  {
    var f := pre + "%s" + post;
    if pre == [] {
      assert f == "%s" + post;
      assert f[2..] == post;
    } else {
      assert f[0] == pre[0] && f[0] != '%';
      assert f[1..] == pre[1..] + "%s" + post;
      SprintfOneVerb(pre[1..], post, arg);
      assert [pre[0]] + (pre[1..] + arg + post) == pre + arg + post;
    }
  }

  /** What follows the cluster name in a cluster subject. */
  function Suffix(e: Endpoint): (r: string)
  {
    match e
    case Status => ".status"
    case ConfigGet => ".config.get"
    case ConfigUpdate => ".config.put"
    case Discover => ""
  }

  /** The subject an endpoint is served on for a cluster. */
  function SubjectFor(e: Endpoint, cluster: string): (r: string)
  {
    if e == Discover then DiscoverSubject else "_SAT." + cluster + Suffix(e)
  }

  /** The subject format constant of each cluster endpoint. */
  function SubjectFormat(e: Endpoint): (r: string)
  {
    match e
    case Status => StatusSubject
    case ConfigGet => ConfigGetSubject
    case ConfigUpdate => ConfigUpdateSubject
    case Discover => DiscoverSubject
  }

  /**
   * Formatting a cluster endpoint's subject constant with the cluster name gives
   * "_SAT.<cluster>.status", "_SAT.<cluster>.config.get" and "_SAT.<cluster>.config.put".
   */
  lemma SprintfSubject(e: Endpoint, cluster: string)
    requires e != Discover
    ensures Sprintf(SubjectFormat(e), cluster) == SubjectFor(e, cluster)
  {
    match e
    case Status =>
      assert StatusSubject == "_SAT." + "%s" + ".status";
      SprintfOneVerb("_SAT.", ".status", cluster);
    case ConfigGet =>
      assert ConfigGetSubject == "_SAT." + "%s" + ".config.get";
      SprintfOneVerb("_SAT.", ".config.get", cluster);
    case ConfigUpdate =>
      assert ConfigUpdateSubject == "_SAT." + "%s" + ".config.put";
      SprintfOneVerb("_SAT.", ".config.put", cluster);
  }

  /** The last and the third-from-last characters of every subject of an endpoint. */
  function EndMarks(e: Endpoint): (r: (char, char))
  {
    match e
    case Discover => ('r', 'v')
    case Status => ('s', 't')
    case ConfigGet => ('t', 'g')
    case ConfigUpdate => ('t', 'p')
  }

  /** The k-th character from the end of `p + suf` lies in `suf`. */
  lemma CharFromEnd(p: string, suf: string, k: nat)
    requires 0 < k <= |suf|
    ensures (p + suf)[|p + suf| - k] == suf[|suf| - k]
  {
  }

  lemma SubjectEndMarks(e: Endpoint, cluster: string)
    ensures |SubjectFor(e, cluster)| >= 3
    ensures SubjectFor(e, cluster)[|SubjectFor(e, cluster)| - 1] == EndMarks(e).0
    ensures SubjectFor(e, cluster)[|SubjectFor(e, cluster)| - 3] == EndMarks(e).1
  {
    var p := "_SAT." + cluster;
    match e
    case Discover =>
    case Status =>
      CharFromEnd(p, ".status", 1);
      CharFromEnd(p, ".status", 3);
    case ConfigGet =>
      CharFromEnd(p, ".config.get", 1);
      CharFromEnd(p, ".config.get", 3);
    case ConfigUpdate =>
      CharFromEnd(p, ".config.put", 1);
      CharFromEnd(p, ".config.put", 3);
  }

  /** A cluster name is recovered from its subject. */
  lemma CancelFrame(x: string, y: string, suf: string)
    requires "_SAT." + x + suf == "_SAT." + y + suf
    ensures x == y
  {
    var s := "_SAT." + x + suf;
    assert |x| == |y|;
    assert x == s[5..5 + |x|];
    assert y == ("_SAT." + y + suf)[5..5 + |y|];
  }

  /**
   * Subjects never collide: two (endpoint, cluster) pairs share a subject exactly
   * when they name the same endpoint and, unless it is the cluster-independent
   * discover subject, the same cluster. With a == b this says the four subjects
   * of one cluster are pairwise distinct.
   */
  lemma SubjectForInjective(e1: Endpoint, a: string, e2: Endpoint, b: string)
    ensures SubjectFor(e1, a) == SubjectFor(e2, b) <==> e1 == e2 && (e1 == Discover || a == b)
  {
    // the end marks tell the endpoints apart
    SubjectEndMarks(e1, a);
    SubjectEndMarks(e2, b);
    if SubjectFor(e1, a) == SubjectFor(e2, b) && e1 != Discover {
      CancelFrame(a, b, Suffix(e1));
    }
  }

  /** The four subjects of one cluster are pairwise distinct. */
  lemma ClusterSubjectsDistinct(cluster: string)
    ensures forall e1, e2 :: SubjectFor(e1, cluster) == SubjectFor(e2, cluster) ==> e1 == e2
  {
    forall e1, e2 | SubjectFor(e1, cluster) == SubjectFor(e2, cluster)
      ensures e1 == e2
    {
      SubjectForInjective(e1, cluster, e2, cluster);
    }
  }
}
