/**
Choosing a backend id for a new resource
(`_create_resource_with_uniqueness_check` in waldur_site_agent/common/processors.py, and the
naming in waldur_site_agent/backend/backends.py).
 */
module BackendIds {
  // ---- names ------------------------------------------------------------------------

  /** A decimal digit. */
  function Digit(n: nat): (c: char)
    requires n < 10
    ensures '0' <= c <= '9' && c as int - '0' as int == n
  {
    ('0' as int + n) as char
  }

  function Decimal(n: nat): (s: string)
    ensures s != []
  {
    if n < 10 then [Digit(n)] else Decimal(n / 10) + [Digit(n % 10)]
  }

  /** The number a decimal stands for. */
  function Value(s: string): int {
    if s == [] then 0 else 10 * Value(s[..|s| - 1]) + (s[|s| - 1] as int - '0' as int)
  }

  lemma {:induction false} DecimalRoundTrip(n: nat)
    ensures Value(Decimal(n)) == n
    ensures forall i :: 0 <= i < |Decimal(n)| ==> '0' <= Decimal(n)[i] <= '9'
  {
    var s := Decimal(n);
    if n < 10 {
      assert s[..0] == [];
    } else {
      DecimalRoundTrip(n / 10);
      assert s[..|s| - 1] == Decimal(n / 10);
    }
  }

  /** Lower case, on the letters A to Z. */
  function LowerChar(c: char): char {
    if 'A' <= c <= 'Z' then (c as int + 32) as char else c
  }

  function Lower(s: string): (r: string)
    ensures |r| == |s| && forall i :: 0 <= i < |s| ==> r[i] == LowerChar(s[i])
  {
    seq(|s|, i requires 0 <= i < |s| => LowerChar(s[i]))
  }

  function BackendId(prefix: string, base: string): string { Lower(prefix + base) }

  /** The name tried on an attempt, with project-slug naming. */
  function Base(slug: string, attempt: nat): string {
    if attempt == 0 then slug else slug + "-" + Decimal(attempt - 1)
  }

  function Candidate(prefix: string, slug: string, attempt: nat): string {
    BackendId(prefix, Base(slug, attempt))
  }

  lemma LowerTail(s: string, tail: string)
    requires forall i :: 0 <= i < |tail| ==> !('A' <= tail[i] <= 'Z')
    ensures Lower(s + tail) == Lower(s) + tail
  {
  }

  function Stem(prefix: string, slug: string): string { Lower(prefix + slug) + "-" }

  lemma CandidateShape(prefix: string, slug: string, attempt: nat)
    requires attempt > 0
    ensures Candidate(prefix, slug, attempt) == Stem(prefix, slug) + Decimal(attempt - 1)
  {
    var tail := "-" + Decimal(attempt - 1);
    DecimalRoundTrip(attempt - 1);
    assert prefix + Base(slug, attempt) == prefix + slug + tail;
    LowerTail(prefix + slug, tail);
    assert Lower(prefix + slug) + tail == Stem(prefix, slug) + Decimal(attempt - 1);
  }

  lemma TailsDiffer(stem: string, x: string, y: string)
    requires x != y
    ensures stem + x != stem + y
  {
    assert (stem + x)[|stem|..] == x && (stem + y)[|stem|..] == y;
  }

  /** No two attempts try the same id. */
  lemma CandidatesDistinct(prefix: string, slug: string, i: nat, j: nat)
    requires i < j
    ensures Candidate(prefix, slug, i) != Candidate(prefix, slug, j)
  {
    CandidateShape(prefix, slug, j);
    if i > 0 {
      CandidateShape(prefix, slug, i);
      DecimalRoundTrip(i - 1);
      DecimalRoundTrip(j - 1);
      TailsDiffer(Stem(prefix, slug), Decimal(i - 1), Decimal(j - 1));
    } else {
      assert |Candidate(prefix, slug, 0)| < |Stem(prefix, slug)|;
    }
  }

  // ---- creation ---------------------------------------------------------------------

  datatype Settings = Settings(
    prefix: string,
    slug: string,
    projectSlug: string,
    projectNaming: bool,
    checkUniqueness: bool,
    configuredRetries: nat)
  {
    function MaxRetries(): nat { if projectNaming || checkUniqueness then configuredRetries else 1 }
  }

  /** An error of the creation other than a duplicate. */
  datatype Fault = NoFault | BeforeCreating | AfterCreating

  /** What surrounds a creation: the offering's history, and what goes wrong on each attempt. */
  datatype World = World(history: set<string>, checkFails: nat -> bool, faults: nat -> Fault)

  /** The check is switched on, was answered, and knows the id. */
  predicate Refused(c: Settings, w: World, attempt: nat, id: string) {
    c.checkUniqueness && !w.checkFails(attempt) && id in w.history
  }

  /** The name tried on an attempt, if no earlier one succeeded. */
  function NameAt(c: Settings, w: World, attempt: nat): string {
    if attempt == 0 then (if c.projectNaming then c.projectSlug else c.slug)
    else
      var last := NameAt(c, w, attempt - 1);
      if Refused(c, w, attempt - 1, BackendId(c.prefix, last)) && !c.projectNaming then last
      else c.projectSlug + "-" + Decimal(attempt - 1)
  }

  function IdAt(c: Settings, w: World, attempt: nat): string { BackendId(c.prefix, NameAt(c, w, attempt)) }

  /** Refused by history, or found on the backend. */
  predicate Taken(c: Settings, w: World, existing: set<string>, attempt: nat) {
    var id := IdAt(c, w, attempt);
    Refused(c, w, attempt, id) || (w.faults(attempt) != BeforeCreating && id in existing)
  }

  predicate AllTaken(c: Settings, w: World, existing: set<string>, n: nat) {
    forall k :: 0 <= k < n ==> Taken(c, w, existing, k)
  }

  lemma {:induction false} ProjectNames(c: Settings, w: World, attempt: nat)
    requires c.projectNaming
    ensures IdAt(c, w, attempt) == Candidate(c.prefix, c.projectSlug, attempt)
  {
    assert NameAt(c, w, attempt) == Base(c.projectSlug, attempt);
  }

  datatype Outcome = Made(id: string) | Exhausted | Raised

  class Creator {
    const settings: Settings
    /** The ids that exist on the backend. */
    var existing: set<string>

    constructor (settings: Settings, existing: set<string>)
      ensures this.settings == settings && this.existing == existing
    {
      this.settings, this.existing := settings, existing;
    }

    /** An error of the check counts as unique. */
    method CheckUniqueness(w: World, attempt: nat, id: string) returns (unique: bool)
      ensures unique <==> !Refused(settings, w, attempt, id)
    {
      if !settings.checkUniqueness {
        return true;
      }
      if w.checkFails(attempt) {
        return true;
      }
      return id !in w.history;
    }

    /** False where the id exists already, which the caller turns into a duplicate error. */
    method CreateBackendResource(id: string) returns (made: bool)
      modifies this
      ensures made <==> id !in old(existing)
      ensures existing == old(existing) + {id}
    {
      made := id !in existing;
      existing := existing + {id};
    }

    /** It gives up only when every attempt's id was taken; otherwise the first that was not decides. */
    method CreateResource(w: World) returns (r: Outcome, ghost at: nat)
      modifies this
      ensures at <= settings.MaxRetries() && AllTaken(settings, w, old(existing), at)
      ensures r == Exhausted <==> at == settings.MaxRetries()
      ensures r != Exhausted ==> !Taken(settings, w, old(existing), at)
      ensures r.Made? ==> r.id == IdAt(settings, w, at) && w.faults(at) == NoFault
      ensures r == Raised ==> w.faults(at) != NoFault
      ensures existing == (if r.Made? || (r == Raised && w.faults(at) == AfterCreating)
                           then old(existing) + {IdAt(settings, w, at)} else old(existing))
    {
      var name := if settings.projectNaming then settings.projectSlug else settings.slug;
      var n := settings.MaxRetries();
      for retry := 0 to n
        invariant existing == old(existing) && AllTaken(settings, w, existing, retry)
        invariant name == NameAt(settings, w, retry)
      {
        var id := BackendId(settings.prefix, name);
        var unique := CheckUniqueness(w, retry, id);
        if !unique {
          if settings.projectNaming {
            name := settings.projectSlug + "-" + Decimal(retry);
          }
          continue;
        }
        if w.faults(retry) == BeforeCreating {
          return Raised, retry;
        }
        var made := CreateBackendResource(id);
        if made {
          return if w.faults(retry) == NoFault then Made(id) else Raised, retry;
        }
        assert existing == old(existing);
        name := settings.projectSlug + "-" + Decimal(retry);
      }
      return Exhausted, n;
    }
  }

  // ---- what distinctness buys -------------------------------------------------------

  /** The ids an attempt could find taken. */
  function Known(c: Settings, w: World, existing: set<string>): set<string> {
    if c.checkUniqueness then w.history + existing else existing
  }

  function FirstIds(c: Settings, w: World, n: nat): set<string> {
    set k | 0 <= k < n :: IdAt(c, w, k)
  }

  lemma IdsDiffer(c: Settings, w: World, i: nat, j: nat)
    requires c.projectNaming && i < j
    ensures IdAt(c, w, i) != IdAt(c, w, j)
  {
    ProjectNames(c, w, i);
    ProjectNames(c, w, j);
    CandidatesDistinct(c.prefix, c.projectSlug, i, j);
  }

  lemma NewId(c: Settings, w: World, m: nat)
    requires c.projectNaming
    ensures IdAt(c, w, m) !in FirstIds(c, w, m)
  {
    forall k | 0 <= k < m ensures IdAt(c, w, k) != IdAt(c, w, m) {
      IdsDiffer(c, w, k, m);
    }
  }

  lemma OneMoreId(c: Settings, w: World, m: nat)
    ensures FirstIds(c, w, m + 1) == FirstIds(c, w, m) + {IdAt(c, w, m)}
  {
    forall id | id in FirstIds(c, w, m + 1) ensures id in FirstIds(c, w, m) + {IdAt(c, w, m)} {
      var k :| 0 <= k < m + 1 && id == IdAt(c, w, k);
    }
  }

  lemma {:induction false} DistinctIds(c: Settings, w: World, n: nat)
    requires c.projectNaming
    ensures |FirstIds(c, w, n)| == n
  {
    if n > 0 {
      DistinctIds(c, w, n - 1);
      NewId(c, w, n - 1);
      OneMoreId(c, w, n - 1);
    }
  }

  lemma {:induction false} SubsetSize<T>(a: set<T>, b: set<T>)
    requires a <= b
    ensures |a| <= |b|
  {
    if x :| x in a {
      SubsetSize(a - {x}, b - {x});
    }
  }

  /** With project-slug naming, giving up takes as many taken ids as there are attempts. */
  lemma GivingUpTakesMany(c: Settings, w: World, existing: set<string>)
    requires c.projectNaming && AllTaken(c, w, existing, c.MaxRetries())
    ensures c.MaxRetries() <= |Known(c, w, existing)|
  {
    var n := c.MaxRetries();
    DistinctIds(c, w, n);
    forall id | id in FirstIds(c, w, n) ensures id in Known(c, w, existing) {
      var k :| 0 <= k < n && id == IdAt(c, w, k);
      assert Taken(c, w, existing, k);
    }
    SubsetSize(FirstIds(c, w, n), Known(c, w, existing));
  }

  // ---- ordinary naming --------------------------------------------------------------

  function SlugId(c: Settings): string { BackendId(c.prefix, c.slug) }

  /** The id the attempt after a duplicate tries. */
  function LaterId(c: Settings, attempt: nat): string {
    BackendId(c.prefix, c.projectSlug + "-" + Decimal(attempt))
  }

  /** With ordinary naming an attempt tries the slug, or the id made for an earlier duplicate. */
  lemma {:induction false} OrdinaryNames(c: Settings, w: World, k: nat)
    requires !c.projectNaming
    ensures NameAt(c, w, k) == c.slug || exists j: nat :: j < k && IdAt(c, w, k) == LaterId(c, j)
  {
    if k > 0 && !Refused(c, w, k - 1, IdAt(c, w, k - 1)) {
      assert IdAt(c, w, k) == LaterId(c, k - 1);
    } else if k > 0 {
      OrdinaryNames(c, w, k - 1);
      if NameAt(c, w, k - 1) != c.slug {
        var j: nat :| j < k - 1 && IdAt(c, w, k - 1) == LaterId(c, j);
        assert IdAt(c, w, k) == LaterId(c, j);
      }
    }
  }

  lemma LaterIdsDiffer(c: Settings, j: nat, k: nat)
    requires j < k
    ensures LaterId(c, j) != LaterId(c, k)
  {
    CandidatesDistinct(c.prefix, c.projectSlug, j + 1, k + 1);
  }

  /** With ordinary naming an id is tried twice in a row exactly when it was refused, or when it
      is the slug and the slug happens to be the next id anyway. */
  lemma RepeatsExactly(c: Settings, w: World, k: nat)
    requires !c.projectNaming
    ensures IdAt(c, w, k + 1) == IdAt(c, w, k) <==>
      Refused(c, w, k, IdAt(c, w, k)) || (NameAt(c, w, k) == c.slug && SlugId(c) == LaterId(c, k))
  {
    if !Refused(c, w, k, IdAt(c, w, k)) {
      assert IdAt(c, w, k + 1) == LaterId(c, k);
      OrdinaryNames(c, w, k);
      if NameAt(c, w, k) != c.slug {
        var j: nat :| j < k && IdAt(c, w, k) == LaterId(c, j);
        LaterIdsDiffer(c, j, k);
      }
    }
  }

  /** From a refusal on, of whatever id, every later attempt whose check is answered asks for
      that id again and is refused it. */
  lemma {:induction false} RefusalSticks(c: Settings, w: World, existing: set<string>, k: nat, n: nat)
    requires !c.projectNaming && k <= n && Refused(c, w, k, IdAt(c, w, k))
    requires forall i :: k <= i <= n ==> !w.checkFails(i)
    ensures IdAt(c, w, n) == IdAt(c, w, k) && Refused(c, w, n, IdAt(c, w, n)) && Taken(c, w, existing, n)
  {
    if k < n {
      RefusalSticks(c, w, existing, k, n - 1);
      assert NameAt(c, w, n) == NameAt(c, w, n - 1);
    }
  }

  /** So once an id is refused and the checks are answered, the creation gives up unless it was
      made before. */
  lemma RefusalEndsIt(c: Settings, w: World, existing: set<string>, k: nat)
    requires !c.projectNaming && k < c.MaxRetries() && Refused(c, w, k, IdAt(c, w, k))
    requires AllTaken(c, w, existing, k) && forall i :: k <= i < c.MaxRetries() ==> !w.checkFails(i)
    ensures AllTaken(c, w, existing, c.MaxRetries())
  {
    forall n | k <= n < c.MaxRetries() ensures Taken(c, w, existing, n) {
      RefusalSticks(c, w, existing, k, n);
    }
  }
}
