/** The discovery feed of DiscoverView.tsx: an ordered queue of candidate profiles,
    a client-side filter over it (distance, inclusive age range, three lifestyle
    toggles) and a per-session swipe quota for free accounts. A like or a pass always
    consumes the head of the UNFILTERED queue, whichever card the filter showed. */
module Discover {
  import opened Common

  datatype Candidate = Candidate(
    id: string, name: string, age: int, avatar: string, location: string,
    job: string, education: string, height: string, bio: string,
    distance: int, smoker: bool, drinker: bool, sports: bool)

  datatype Lifestyle = Lifestyle(nonSmoker: bool, socialDrinker: bool, active: bool)

  /** The filter state: `maxDistance[0]`, `ageRange[0..1]` and `lifestyle`. */
  datatype Filters = Filters(maxDistance: int, ageMin: int, ageMax: int, lifestyle: Lifestyle)

  datatype Action = Like | Pass

  /** What `handleAction` did: refused for lack of quota, recorded by the server, or
      failed at the server (the demo fallback still consumes the card). */
  datatype Outcome = LimitReached | Recorded | RecordFailed

  /** The call `discoverService.createMatch(targetUserId, action)`. */
  datatype MatchRequest = MatchRequest(targetUserId: string, action: Action)

  const FREE_QUOTA: int := 5
  const PREMIUM_QUOTA: int := 9999

  const NoLifestyle := Lifestyle(false, false, false)
  const DefaultFilters := Filters(50, 18, 50, NoLifestyle)
  /** What the "Limpar Filtros" button installs: the widest span of every slider. */
  const WidestFilters := Filters(200, 18, 100, NoLifestyle)

  const MockProfiles: seq<Candidate> := [
    Candidate("user1", "Juliana", 26, "👩", "Rio de Janeiro, RJ", "Designer", "PUC-RIO", "1.65m",
      "Amo café, design e gatos. Procurando alguém para dividir a conta da Netflix.", 5, false, true, false),
    Candidate("user2", "Pedro", 30, "👨", "São Paulo, SP", "Engenheiro", "USP", "1.80m",
      "Engenheiro de dia, gamer de noite. Bora jogar?", 12, false, false, true),
    Candidate("user3", "Carla", 28, "👧", "Belo Horizonte, MG", "Médica", "UFMG", "1.70m",
      "Plantões intermináveis, mas sempre arrumo tempo para um bom vinho.", 45, false, true, true),
    Candidate("user4", "Marcos", 35, "🧔", "Curitiba, PR", "Chef", "Le Cordon Bleu", "1.78m",
      "Cozinho melhor que sua mãe. Duvida?", 80, true, true, false)
  ]

  /** `useState(user.isPremium ? 9999 : 5)`. */
  function InitialQuota(isPremium: bool): int {
    if isPremium then PREMIUM_QUOTA else FREE_QUOTA
  }

  // ---------------------------------------------------------------------------
  // Filtering (pure)

  /** The predicate passed to `profiles.filter`, guard by guard. */
  predicate Visible(p: Candidate, f: Filters) {
    if p.distance > f.maxDistance then false
    else if p.age < f.ageMin || p.age > f.ageMax then false
    else if f.lifestyle.nonSmoker && p.smoker then false
    else if f.lifestyle.socialDrinker && !p.drinker then false
    else if f.lifestyle.active && !p.sports then false
    else true
  }

  /** The guards combine with AND semantics: inclusive bounds, and a toggle that is
      off asks nothing. */
  lemma VisibleIff(p: Candidate, f: Filters)
    ensures Visible(p, f) <==>
      && p.distance <= f.maxDistance
      && f.ageMin <= p.age <= f.ageMax
      && (f.lifestyle.nonSmoker ==> !p.smoker)
      && (f.lifestyle.socialDrinker ==> p.drinker)
      && (f.lifestyle.active ==> p.sports)
  {
  }

  function FilteredProfiles(profiles: seq<Candidate>, f: Filters): (r: seq<Candidate>)
    ensures forall p :: p in r <==> p in profiles && Visible(p, f)
    ensures IsSubsequence(r, profiles)
  {
    Filter(profiles, p => Visible(p, f))
  }

  /** Index `i` holds the first candidate the filter lets through. */
  predicate IsFirstVisible(profiles: seq<Candidate>, f: Filters, i: int) {
    && 0 <= i < |profiles|
    && Visible(profiles[i], f)
    && forall j :: 0 <= j < i ==> !Visible(profiles[j], f)
  }

  /** `filteredProfiles[0]`: the first visible candidate in queue order, if any. */
  function CurrentProfile(profiles: seq<Candidate>, f: Filters): (r: Option<Candidate>)
    ensures r.None? <==> forall i :: 0 <= i < |profiles| ==> !Visible(profiles[i], f)
    ensures r.Some? ==> exists i :: IsFirstVisible(profiles, f, i) && profiles[i] == r.value
  {
    var fp := FilteredProfiles(profiles, f);
    if fp == [] then
      assert forall i :: 0 <= i < |profiles| ==> !Visible(profiles[i], f) by {
        forall i | 0 <= i < |profiles| ensures !Visible(profiles[i], f) {
          assert profiles[i] in profiles;
        }
      }
      None
    else
      FirstVisibleHead(profiles, f);
      Some(fp[0])
  }

  lemma {:induction false} FirstVisibleHead(profiles: seq<Candidate>, f: Filters)
    requires FilteredProfiles(profiles, f) != []
    ensures exists i :: IsFirstVisible(profiles, f, i) && profiles[i] == FilteredProfiles(profiles, f)[0]
  {
    assert profiles != [];
    if Visible(profiles[0], f) {
      assert IsFirstVisible(profiles, f, 0);
    } else {
      assert FilteredProfiles(profiles, f) == FilteredProfiles(profiles[1..], f);
      FirstVisibleHead(profiles[1..], f);
      var i :| IsFirstVisible(profiles[1..], f, i) && profiles[1..][i] == FilteredProfiles(profiles, f)[0];
      assert IsFirstVisible(profiles, f, i + 1);
    }
  }

  /** Widening every filter never hides a candidate the defaults showed. */
  lemma WidestFiltersShowMore(p: Candidate, f: Filters)
    requires Visible(p, f) && 18 <= f.ageMin && f.ageMax <= 100 && f.maxDistance <= 200
    ensures Visible(p, WidestFilters)
  {
  }

  // ---------------------------------------------------------------------------
  // Quota and queue (pure specification of handleAction)

  datatype Queue = Queue(profiles: seq<Candidate>, matchesLeft: int)

  datatype ActionResult = ActionResult(outcome: Outcome, queue: Queue)

  /** `prev.slice(1)`. */
  function Rest(profiles: seq<Candidate>): seq<Candidate> {
    if profiles == [] then [] else profiles[1..]
  }

  /** One like/pass: the guard, the removal of the unfiltered head, and the decrement
      that only a recorded action of a free account performs. `recorded` is whether
      `createMatch` succeeded. */
  function Act(q: Queue, isPremium: bool, recorded: bool): (r: ActionResult)
    ensures r.outcome == LimitReached <==> !isPremium && q.matchesLeft <= 0
    ensures r.outcome == LimitReached ==> r.queue == q
    ensures r.outcome != LimitReached ==> (r.outcome == Recorded <==> recorded)
    ensures r.outcome != LimitReached && q.profiles != [] ==>
      q.profiles == [q.profiles[0]] + r.queue.profiles
    ensures r.outcome != LimitReached && q.profiles == [] ==> r.queue.profiles == []
    ensures r.outcome == Recorded && !isPremium ==> r.queue.matchesLeft == q.matchesLeft - 1
    ensures isPremium || r.outcome != Recorded ==> r.queue.matchesLeft == q.matchesLeft
  {
    if !isPremium && q.matchesLeft <= 0 then ActionResult(LimitReached, q)
    else if recorded then
      ActionResult(Recorded, Queue(Rest(q.profiles), if isPremium then q.matchesLeft else q.matchesLeft - 1))
    else
      ActionResult(RecordFailed, Queue(Rest(q.profiles), q.matchesLeft))
  }

  /** A session of actions; `results[k]` says whether the k-th `createMatch` call succeeded. */
  function Run(q: Queue, isPremium: bool, results: seq<bool>): Queue
    decreases |results|
  {
    if results == [] then q
    else Run(Act(q, isPremium, results[0]).queue, isPremium, results[1..])
  }

  /** The quota of a free account never goes below zero, and a premium quota never moves. */
  lemma {:induction false} QuotaNeverNegative(q: Queue, isPremium: bool, results: seq<bool>)
    requires q.matchesLeft >= 0
    ensures Run(q, isPremium, results).matchesLeft >= 0
    ensures isPremium ==> Run(q, isPremium, results).matchesLeft == q.matchesLeft
    ensures Run(q, isPremium, results).matchesLeft <= q.matchesLeft
    decreases |results|
  {
    if results != [] {
      QuotaNeverNegative(Act(q, isPremium, results[0]).queue, isPremium, results[1..]);
    }
  }

  /** `n` successful actions of a free account with quota at least `n` spend exactly
      `n` units and consume exactly the first `n` candidates. */
  lemma {:induction false} SuccessfulRun(q: Queue, n: nat)
    requires n <= q.matchesLeft && n <= |q.profiles|
    ensures Run(q, false, seq(n, _ => true)) == Queue(q.profiles[n..], q.matchesLeft - n)
    decreases n
  {
    if n > 0 {
      var next := Act(q, false, true).queue;
      assert next == Queue(q.profiles[1..], q.matchesLeft - 1);
      assert seq(n, _ => true)[1..] == seq(n - 1, _ => true);
      SuccessfulRun(next, n - 1);
      assert q.profiles[1..][n - 1..] == q.profiles[n..];
    }
  }

  /** A fresh free session accepts exactly five actions: after five recorded ones the
      sixth is refused and leaves the queue and the quota as they were. */
  lemma FreeSessionAllowsFive(profiles: seq<Candidate>, recorded: bool)
    requires |profiles| >= FREE_QUOTA
    ensures var q := Run(Queue(profiles, InitialQuota(false)), false, seq(FREE_QUOTA, _ => true));
      && q == Queue(profiles[FREE_QUOTA..], 0)
      && Act(q, false, recorded) == ActionResult(LimitReached, q)
  {
    SuccessfulRun(Queue(profiles, InitialQuota(false)), FREE_QUOTA);
  }

  /** The handler removes the unfiltered head even when the filter hides it: with the
      mock queue and the "Pratica Esportes" toggle on, Pedro is shown, a like removes
      Juliana, and Pedro is still the card shown afterwards. */
  lemma ActionConsumesHiddenHead()
    ensures var f := Filters(50, 18, 50, Lifestyle(false, false, true));
      && CurrentProfile(MockProfiles, f) == Some(MockProfiles[1])
      && Act(Queue(MockProfiles, FREE_QUOTA), false, true).queue.profiles == MockProfiles[1..]
      && CurrentProfile(MockProfiles[1..], f) == Some(MockProfiles[1])
  {
    var f := Filters(50, 18, 50, Lifestyle(false, false, true));
    assert !Visible(MockProfiles[0], f) && Visible(MockProfiles[1], f);
    assert IsFirstVisible(MockProfiles, f, 1);
    assert IsFirstVisible(MockProfiles[1..], f, 0);
  }

  /** Two candidates, one far away: the near one is shown, a like consumes it, and
      nothing is left to show under the same filters. */
  lemma LikeThenNoMoreProfiles(u1: Candidate, u2: Candidate)
    requires u1.distance == 5 && u1.age == 26 && u2.distance == 80 && u2.age == 35
    ensures var f := Filters(50, 18, 50, NoLifestyle);
      && CurrentProfile([u1, u2], f) == Some(u1)
      && var q := Act(Queue([u1, u2], FREE_QUOTA), false, true).queue;
      && q.profiles == [u2]
      && CurrentProfile(q.profiles, f) == None
  {
    var f := Filters(50, 18, 50, NoLifestyle);
    assert IsFirstVisible([u1, u2], f, 0);
  }

  /** Filtering hides without removing: a candidate 45 km away vanishes under a 10 km
      limit and comes back, the same candidate, once the filters are reset. */
  lemma ResetRestoresHiddenCandidate(c: Candidate)
    requires c.distance == 45 && 18 <= c.age <= 100
    ensures CurrentProfile([c], Filters(10, 18, 50, NoLifestyle)) == None
    ensures CurrentProfile([c], WidestFilters) == Some(c)
  {
    assert IsFirstVisible([c], WidestFilters, 0);
  }

  // ---------------------------------------------------------------------------
  // The component state

  class DiscoverView {
    const isPremium: bool
    var profiles: seq<Candidate>
    var matchesLeft: int
    var maxDistance: int
    var ageMin: int
    var ageMax: int
    var lifestyle: Lifestyle

    /** The quota stays within its initial allotment and never below zero. */
    ghost predicate Valid()
      reads this
    {
      0 <= matchesLeft <= InitialQuota(isPremium) && (isPremium ==> matchesLeft == PREMIUM_QUOTA)
    }

    function CurrentFilters(): Filters
      reads this
    {
      Filters(maxDistance, ageMin, ageMax, lifestyle)
    }

    /** The card on screen. */
    function Current(): Option<Candidate>
      reads this
    {
      CurrentProfile(profiles, CurrentFilters())
    }

    /** The initial `useState` values. */
    constructor (isPremium: bool)
      ensures this.isPremium == isPremium
      ensures profiles == MockProfiles
      ensures matchesLeft == (if isPremium then 9999 else 5)
      ensures CurrentFilters() == Filters(50, 18, 50, Lifestyle(false, false, false))
      ensures Valid()
    {
      this.isPremium := isPremium;
      profiles := MockProfiles;
      matchesLeft := InitialQuota(isPremium);
      maxDistance, ageMin, ageMax := 50, 18, 50;
      lifestyle := NoLifestyle;
    }

    /** `handleAction`: `recorded` is whether `createMatch` resolved. */
    method HandleAction(action: Action, targetUserId: string, recorded: bool)
      returns (outcome: Outcome, request: Option<MatchRequest>)
      requires Valid()
      modifies this
      ensures Valid()
      ensures var r := Act(Queue(old(profiles), old(matchesLeft)), isPremium, recorded);
        outcome == r.outcome && profiles == r.queue.profiles && matchesLeft == r.queue.matchesLeft
      ensures request.Some? <==> outcome != LimitReached
      ensures request.Some? ==> request.value == MatchRequest(targetUserId, action)
      ensures CurrentFilters() == old(CurrentFilters())
    {
      if !isPremium && matchesLeft <= 0 {
        return LimitReached, None;
      }
      request := Some(MatchRequest(targetUserId, action));
      if recorded {
        profiles := Rest(profiles);
        if !isPremium {
          matchesLeft := matchesLeft - 1;
        }
        outcome := Recorded;
      } else {
        profiles := Rest(profiles);
        outcome := RecordFailed;
      }
    }

    /** The distance slider. */
    method SetMaxDistance(d: int)
      modifies this
      ensures maxDistance == d
      ensures profiles == old(profiles) && matchesLeft == old(matchesLeft)
      ensures ageMin == old(ageMin) && ageMax == old(ageMax) && lifestyle == old(lifestyle)
    {
      maxDistance := d;
    }

    /** The two-thumb age slider. */
    method SetAgeRange(lo: int, hi: int)
      modifies this
      ensures ageMin == lo && ageMax == hi
      ensures profiles == old(profiles) && matchesLeft == old(matchesLeft)
      ensures maxDistance == old(maxDistance) && lifestyle == old(lifestyle)
    {
      ageMin, ageMax := lo, hi;
    }

    /** The "Não Fumante" button. */
    method ToggleNonSmoker()
      modifies this
      ensures lifestyle == old(lifestyle).(nonSmoker := !old(lifestyle.nonSmoker))
      ensures profiles == old(profiles) && matchesLeft == old(matchesLeft)
      ensures maxDistance == old(maxDistance) && ageMin == old(ageMin) && ageMax == old(ageMax)
    {
      lifestyle := lifestyle.(nonSmoker := !lifestyle.nonSmoker);
    }

    /** The "Bebe Socialmente" button. */
    method ToggleSocialDrinker()
      modifies this
      ensures lifestyle == old(lifestyle).(socialDrinker := !old(lifestyle.socialDrinker))
      ensures profiles == old(profiles) && matchesLeft == old(matchesLeft)
      ensures maxDistance == old(maxDistance) && ageMin == old(ageMin) && ageMax == old(ageMax)
    {
      lifestyle := lifestyle.(socialDrinker := !lifestyle.socialDrinker);
    }

    /** The "Pratica Esportes" button. */
    method ToggleActive()
      modifies this
      ensures lifestyle == old(lifestyle).(active := !old(lifestyle.active))
      ensures profiles == old(profiles) && matchesLeft == old(matchesLeft)
      ensures maxDistance == old(maxDistance) && ageMin == old(ageMin) && ageMax == old(ageMax)
    {
      lifestyle := lifestyle.(active := !lifestyle.active);
    }

    /** "Limpar Filtros": widest sliders, no toggle; the queue and the quota stay. */
    method ResetFilters()
      modifies this
      ensures CurrentFilters() == Filters(200, 18, 100, Lifestyle(false, false, false))
      ensures profiles == old(profiles) && matchesLeft == old(matchesLeft)
    {
      maxDistance := 200;
      ageMin, ageMax := 18, 100;
      lifestyle := NoLifestyle;
    }
  }
}
