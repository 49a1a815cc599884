/** How many conversations racing resolvers make. */
module ContactRaces {
  import opened Wrappers
  import opened Messages
  import opened Contacts
  import opened Sequences

  /** What can be counted about a key's resolvers: those that missed the cache, those
      that made a conversation, and of these the ones that cached it, the ones that
      ended without caching it, and the ones still holding it. */
  datatype What = Missing | Making | Keeping | Wasting | Holding

  predicate Is(r: Resolver, key: ContactKey, what: What) {
    r.key == key && match what
      case Missing => r.missed
      case Making => r.made
      case Keeping => r.made && r.wrote
      case Wasting => r.made && !r.wrote && r.phase == Ended
      case Holding => r.made && !r.wrote && r.phase != Ended
  }

  function One(b: bool): nat {
    if b then 1 else 0
  }

  /** How many of the first n. */
  function Count(rs: seq<Resolver>, key: ContactKey, what: What, n: nat): nat
    requires n <= |rs|
  {
    if n == 0 then 0 else Count(rs, key, what, n - 1) + One(Is(rs[n - 1], key, what))
  }

  function CountAll(s: State, key: ContactKey, what: What): nat {
    Count(s.resolvers, key, what, |s.resolvers|)
  }

  /** Conversations made for the key, among the first n. */
  function MadeFor(cs: seq<Conversation>, key: ContactKey, n: nat): nat
    requires n <= |cs|
  {
    if n == 0 then 0 else MadeFor(cs, key, n - 1) + One(cs[n - 1].maker == Some(key))
  }

  function Conversations(s: State, key: ContactKey): nat {
    MadeFor(s.conversations, key, |s.conversations|)
  }

  /** A key's conversations are those of Chatwoot's that were made for it. */
  lemma {:induction false} MadeForIsSize(s: State, key: ContactKey, n: nat)
    requires n <= |s.conversations|
    ensures MadeFor(s.conversations, key, n) == |MadeAt(s, key, n)|
  {
    if n > 0 {
      MadeForIsSize(s, key, n - 1);
      if s.conversations[n - 1].maker == Some(key) {
        assert MadeAt(s, key, n) == MadeAt(s, key, n - 1) + {n - 1};
      } else {
        assert MadeAt(s, key, n) == MadeAt(s, key, n - 1);
      }
    }
  }

  function MadeAt(s: State, key: ContactKey, n: nat): set<nat>
    requires n <= |s.conversations|
  {
    set i: nat | i < n && s.conversations[i].maker == Some(key)
  }

  /** And its misses the resolvers of it that missed. */
  lemma {:induction false} MissesAreSizes(s: State, key: ContactKey, n: nat)
    requires n <= |s.resolvers|
    ensures Count(s.resolvers, key, Missing, n) == |MissedAt(s, key, n)|
  {
    if n > 0 {
      MissesAreSizes(s, key, n - 1);
      if s.resolvers[n - 1].key == key && s.resolvers[n - 1].missed {
        assert MissedAt(s, key, n) == MissedAt(s, key, n - 1) + {n - 1};
      } else {
        assert MissedAt(s, key, n) == MissedAt(s, key, n - 1);
      }
    }
  }

  function MissedAt(s: State, key: ContactKey, n: nat): set<nat>
    requires n <= |s.resolvers|
  {
    set w: nat | w < n && s.resolvers[w].key == key && s.resolvers[w].missed
  }

  // ---- counting ----

  lemma {:induction false} CountMoved(rs: seq<Resolver>, w: nat, r: Resolver, key: ContactKey, what: What, n: nat)
    requires w < |rs| && n <= |rs|
    ensures Count(rs[w := r], key, what, n) + One(w < n && Is(rs[w], key, what))
         == Count(rs, key, what, n) + One(w < n && Is(r, key, what))
  {
    if n > 0 {
      CountMoved(rs, w, r, key, what, n - 1);
    }
  }

  lemma {:induction false} CountAppended(rs: seq<Resolver>, r: Resolver, key: ContactKey, what: What, n: nat)
    requires n <= |rs|
    ensures Count(rs + [r], key, what, n) == Count(rs, key, what, n)
  {
    if n > 0 {
      CountAppended(rs, r, key, what, n - 1);
    }
  }

  lemma {:induction false} MadeForAppended(cs: seq<Conversation>, c: Conversation, key: ContactKey, n: nat)
    requires n <= |cs|
    ensures MadeFor(cs + [c], key, n) == MadeFor(cs, key, n)
  {
    if n > 0 {
      MadeForAppended(cs, c, key, n - 1);
    }
  }

  /** At most one of them makes the count a question of existence. */
  lemma {:induction false} CountOne(rs: seq<Resolver>, key: ContactKey, what: What, n: nat)
    requires n <= |rs|
    requires forall i, j | 0 <= i < j < n :: !(Is(rs[i], key, what) && Is(rs[j], key, what))
    ensures Count(rs, key, what, n) == One(exists w | 0 <= w < n :: Is(rs[w], key, what))
  {
    if n > 0 {
      CountOne(rs, key, what, n - 1);
    }
  }

  lemma {:induction false} CountSome(rs: seq<Resolver>, key: ContactKey, what: What, n: nat)
    requires n <= |rs|
    ensures Count(rs, key, what, n) > 0 <==> exists w | 0 <= w < n :: Is(rs[w], key, what)
  {
    if n > 0 {
      CountSome(rs, key, what, n - 1);
    }
  }

  // ---- what a resolver's phase says about its past ----

  predicate Tidy(s: State, r: Resolver) {
    && (r.made ==> r.missed)
    && (r.wrote ==> r.key in s.cache && (r.missed ==> r.made))
    && match r.phase
       case Looking => !r.missed && !r.wrote
       case NeedUpsert(_) => !r.wrote && (if r.missed then r.made else r.key in s.cache)
       case NeedPost(_) => r.wrote
       case Ended => true
       case _ => r.missed && !r.made && !r.wrote
  }

  predicate AllTidy(s: State) {
    forall w | 0 <= w < |s.resolvers| :: Tidy(s, s.resolvers[w])
  }

  /** Does the action move a resolver? */
  predicate Moves(a: Action) {
    !a.Begin? && !a.AgentContact? && !a.AgentConversation?
  }

  /** The one resolver that moves, and the cache, which never loses a key. */
  lemma StepShape(s: State, a: Action)
    requires Enabled(s, a)
    ensures var s' := Apply(s, a);
            && s.cache.Keys <= s'.cache.Keys
            && (Moves(a) ==> At(s, a.w) && s'.resolvers == s.resolvers[a.w := s'.resolvers[a.w]]
                             && s'.resolvers[a.w].key == s.resolvers[a.w].key
                             && s'.cache.Keys <= s.cache.Keys + {s.resolvers[a.w].key})
            && (!Moves(a) ==> s'.cache == s.cache && s.resolvers <= s'.resolvers)
  {
  }

  lemma MovedIsTidy(s: State, a: Action)
    requires Enabled(s, a) && AllTidy(s) && Moves(a)
    ensures Tidy(Apply(s, a), Apply(s, a).resolvers[a.w])
  {
    assert Tidy(s, s.resolvers[a.w]);
  }

  lemma StepKeepsTidy(s: State, a: Action)
    requires Enabled(s, a) && AllTidy(s)
    ensures AllTidy(Apply(s, a))
  {
    var s' := Apply(s, a);
    StepShape(s, a);
    forall w | 0 <= w < |s'.resolvers|
      ensures Tidy(s', s'.resolvers[w])
    {
      if Moves(a) && w == a.w {
        MovedIsTidy(s, a);
      } else if w < |s.resolvers| {
        assert Tidy(s, s.resolvers[w]) && s'.resolvers[w] == s.resolvers[w];
      }
    }
  }

  /** A step changes a count by what it does to the resolver it moves. */
  lemma CountStep(s: State, a: Action, key: ContactKey, what: What)
    requires Enabled(s, a)
    ensures var s' := Apply(s, a);
            && (Moves(a) ==> At(s, a.w) && At(s', a.w))
            && CountAll(s', key, what) + One(Moves(a) && Is(s.resolvers[a.w], key, what))
               == CountAll(s, key, what) + One(Moves(a) && Is(s'.resolvers[a.w], key, what))
  {
    StepShape(s, a);
    if a.Begin? {
      CountAppended(s.resolvers, Resolver(a.key, Looking, false, false, false), key, what, |s.resolvers|);
    } else if Moves(a) {
      CountMoved(s.resolvers, a.w, Apply(s, a).resolvers[a.w], key, what, |s.resolvers|);
    }
  }

  predicate MakesFor(s: State, a: Action, key: ContactKey)
    requires Enabled(s, a)
  {
    a.MakeConversation? && a.reply != NotDone && s.resolvers[a.w].key == key
  }

  lemma ConversationsStep(s: State, a: Action, key: ContactKey)
    requires Enabled(s, a)
    ensures Conversations(Apply(s, a), key) == Conversations(s, key) + One(MakesFor(s, a, key))
  {
    var s' := Apply(s, a);
    if |s'.conversations| > |s.conversations| {
      MadeForAppended(s.conversations, s'.conversations[|s.conversations|], key, |s.conversations|);
      assert s'.conversations == s.conversations + [s'.conversations[|s.conversations|]];
    } else {
      assert s'.conversations == s.conversations;
    }
  }

  lemma MakersStep(s: State, a: Action, key: ContactKey)
    requires Enabled(s, a) && AllTidy(s)
    ensures CountAll(Apply(s, a), key, Making) == CountAll(s, key, Making) + One(MakesFor(s, a, key))
  {
    CountStep(s, a, key, Making);
    if Moves(a) {
      assert Tidy(s, s.resolvers[a.w]);
    }
  }

  lemma {:induction false} RunIsTidy(r: Run, k: nat)
    requires IsRun(r) && k <= |r.steps|
    ensures AllTidy(r.states[k])
  {
    if k > 0 {
      RunIsTidy(r, k - 1);
      assert Step(r.states[k - 1], r.steps[k - 1], r.states[k]);
      StepKeepsTidy(r.states[k - 1], r.steps[k - 1]);
    }
  }

  /** Every conversation made for the key was made by one of its resolvers. */
  lemma {:induction false} RunLedger(r: Run, k: nat, key: ContactKey)
    requires IsRun(r) && k <= |r.steps|
    ensures Conversations(r.states[k], key) == CountAll(r.states[k], key, Making)
  {
    if k > 0 {
      RunLedger(r, k - 1, key);
      RunIsTidy(r, k - 1);
      assert Step(r.states[k - 1], r.steps[k - 1], r.states[k]);
      ConversationsStep(r.states[k - 1], r.steps[k - 1], key);
      MakersStep(r.states[k - 1], r.steps[k - 1], key);
    }
  }

  lemma {:induction false} MakersSplit(s: State, key: ContactKey, n: nat)
    requires AllTidy(s) && n <= |s.resolvers|
    ensures Count(s.resolvers, key, Making, n)
         == Count(s.resolvers, key, Keeping, n) + Count(s.resolvers, key, Wasting, n)
            + Count(s.resolvers, key, Holding, n)
    ensures Count(s.resolvers, key, Making, n) <= Count(s.resolvers, key, Missing, n)
  {
    if n > 0 {
      MakersSplit(s, key, n - 1);
      assert Tidy(s, s.resolvers[n - 1]);
    }
  }

  /** Conversations are conserved: those made for a key are those cached at least
      once, those lost on the way and those still to be cached, and there are at most
      as many as cache misses. */
  lemma EveryConversationIsAccountedFor(r: Run, k: nat, key: ContactKey)
    requires IsRun(r) && k <= |r.steps|
    ensures var s := r.states[k];
            && Conversations(s, key)
               == CountAll(s, key, Keeping) + CountAll(s, key, Wasting) + CountAll(s, key, Holding)
            && Conversations(s, key) <= CountAll(s, key, Missing)
  {
    RunLedger(r, k, key);
    RunIsTidy(r, k);
    MakersSplit(r.states[k], key, |r.states[k].resolvers|);
  }

  // ---- after the first write ----

  lemma MissesOnlyWithoutCache(s: State, a: Action, key: ContactKey)
    requires Enabled(s, a) && key in s.cache
    ensures Moves(a) ==>
              && At(s, a.w) && At(Apply(s, a), a.w)
              && (Is(Apply(s, a).resolvers[a.w], key, Missing) <==> Is(s.resolvers[a.w], key, Missing))
  {
  }

  lemma StepKeepsMisses(s: State, a: Action, key: ContactKey)
    requires Enabled(s, a) && key in s.cache
    ensures key in Apply(s, a).cache && CountAll(Apply(s, a), key, Missing) == CountAll(s, key, Missing)
  {
    StepShape(s, a);
    CountStep(s, a, key, Missing);
    MissesOnlyWithoutCache(s, a, key);
  }

  lemma {:induction false} MissesEnd(r: Run, j: nat, k: nat, key: ContactKey)
    requires IsRun(r) && j <= k <= |r.steps| && key in r.states[j].cache
    ensures key in r.states[k].cache
    ensures CountAll(r.states[k], key, Missing) == CountAll(r.states[j], key, Missing)
    decreases k
  {
    if j < k {
      MissesEnd(r, j, k - 1, key);
      assert Step(r.states[k - 1], r.steps[k - 1], r.states[k]);
      StepKeepsMisses(r.states[k - 1], r.steps[k - 1], key);
    }
  }

  /** However the resolvers of a key race, its conversations never outnumber those
      that had missed the cache when it was first written. */
  lemma RaceBound(r: Run, j: nat, k: nat, key: ContactKey)
    requires IsRun(r) && j <= k <= |r.steps| && key in r.states[j].cache
    ensures Conversations(r.states[k], key) <= CountAll(r.states[j], key, Missing)
  {
    MissesEnd(r, j, k, key);
    EveryConversationIsAccountedFor(r, k, key);
  }

  /** A resolver that had not looked by then asks Chatwoot for neither contact nor conversation. */
  lemma {:induction false} LateResolversMakeNothing(r: Run, j: nat, k: nat, w: nat)
    requires IsRun(r) && j <= k <= |r.steps| && At(r.states[k], w)
    requires r.states[k].resolvers[w].key in r.states[j].cache
    requires At(r.states[j], w) ==> r.states[j].resolvers[w].phase == Looking
    ensures var late := r.states[k].resolvers[w];
            && !late.missed && !late.made
            && (late.phase == Looking || late.phase.NeedUpsert? || late.phase.NeedPost? || late.phase == Ended)
    decreases k
  {
    RunIsTidy(r, k);
    assert Tidy(r.states[k], r.states[k].resolvers[w]);
    if j < k {
      var s, a := r.states[k - 1], r.steps[k - 1];
      assert Step(s, a, r.states[k]);
      StepShape(s, a);
      MissesEnd(r, j, k - 1, r.states[k].resolvers[w].key);
      if At(s, w) {
        LateResolversMakeNothing(r, j, k - 1, w);
      }
    }
  }

  // ---- the bound is met ----

  function Last(r: Run): State
    requires |r.states| > 0
  {
    r.states[|r.states| - 1]
  }

  lemma OneMore(r: Run, a: Action) returns (r': Run)
    requires IsRun(r) && Enabled(Last(r), a)
    ensures IsRun(r') && Last(r') == Apply(Last(r), a)
  {
    var s' := Apply(Last(r), a);
    r' := Run(r.states + [s'], r.steps + [a]);
    forall k {:trigger r'.steps[k]} | 0 <= k < |r'.steps|
      ensures Step(r'.states[k], r'.steps[k], r'.states[k + 1])
    {
      if k < |r.steps| {
        assert r'.steps[k] == r.steps[k];
      }
    }
  }

  /** The contact exists and n resolvers hold a conversation each, none of them cached. */
  predicate Racing(s: State, key: ContactKey, n: nat) {
    && s.contacts == [ContactOf(key)] && s.cache == map[] && |s.resolvers| == n
    && Conversations(s, key) == n && CountAll(s, key, Missing) == n
    && forall w | 0 <= w < n :: s.resolvers[w].key == key && s.resolvers[w].phase.NeedUpsert?
  }

  /** A resolver on its way from the cache to the search, which finds the contact. */
  lemma Searches(r: Run, key: ContactKey) returns (r': Run)
    requires IsRun(r) && Last(r).contacts == [ContactOf(key)] && Last(r).cache == map[]
    ensures IsRun(r')
    ensures var found := Resolver(key, NeedConversation(0), true, false, false);
            Last(r') == Last(r).(resolvers := Last(r).resolvers + [found])
  {
    var s, w := Last(r), |Last(r).resolvers|;
    r' := OneMore(r, Begin(key));
    r' := OneMore(r', Look(w, false));
    assert Clash(s.contacts[0], ContactOf(key));
    r' := OneMore(r', MakeContact(w, Answered));
    r' := OneMore(r', FindContact(w, Some([0])));
  }

  lemma OneMoreRacer(r: Run, key: ContactKey, n: nat) returns (r': Run)
    requires IsRun(r) && Racing(Last(r), key, n)
    ensures IsRun(r') && Racing(Last(r'), key, n + 1)
  {
    var s := Last(r);
    r' := Searches(r, key);
    CountAppended(s.resolvers, Resolver(key, NeedConversation(0), true, false, false), key, Missing, n);
    ConversationsStep(Last(r'), MakeConversation(n, Answered), key);
    CountStep(Last(r'), MakeConversation(n, Answered), key, Missing);
    r' := OneMore(r', MakeConversation(n, Answered));
  }

  /** Any number of racers can each make a conversation. */
  lemma {:induction false} Race(key: ContactKey, n: nat) returns (r: Run)
    ensures IsRun(r) && Racing(Last(r), key, n)
  {
    if n == 0 {
      r := OneMore(Run([INIT], []), AgentContact(ContactOf(key)));
    } else {
      r := Race(key, n - 1);
      r := OneMoreRacer(r, key, n - 1);
    }
  }

  /** RaceBound is met by every number of racers. */
  lemma BoundIsMet(key: ContactKey, n: nat) returns (r: Run)
    requires n > 0
    ensures IsRun(r) && key in Last(r).cache
    ensures Conversations(Last(r), key) == n && CountAll(Last(r), key, Missing) == n
  {
    r := Race(key, n);
    CountStep(Last(r), Upsert(0, Applied), key, Missing);
    r := OneMore(r, Upsert(0, Applied));
  }

  // ---- a second conversation ----

  /** The key has a conversation: a cached one, one a resolver holds, or a wasted one. */
  predicate Served(s: State, key: ContactKey) {
    || key in s.cache
    || (exists w | 0 <= w < |s.resolvers| :: Is(s.resolvers[w], key, Holding))
    || (exists w | 0 <= w < |s.resolvers| :: Is(s.resolvers[w], key, Wasting))
  }

  /** Some maker wrote the cache first. */
  lemma StepKeepsKept(s: State, a: Action, key: ContactKey)
    requires Enabled(s, a) && AllTidy(s)
    requires CountAll(s, key, Keeping) > 0 <==> key in s.cache
    ensures CountAll(Apply(s, a), key, Keeping) > 0 <==> key in Apply(s, a).cache
  {
    CountStep(s, a, key, Keeping);
    StepShape(s, a);
    if Moves(a) {
      assert Tidy(s, s.resolvers[a.w]);
      KeeperMoves(s, a, key);
    }
  }

  lemma KeeperMoves(s: State, a: Action, key: ContactKey)
    requires Enabled(s, a) && Moves(a) && Tidy(s, s.resolvers[a.w])
    ensures Is(s.resolvers[a.w], key, Keeping) ==> Is(Apply(s, a).resolvers[a.w], key, Keeping)
    ensures key in Apply(s, a).cache <==> key in s.cache || Is(Apply(s, a).resolvers[a.w], key, Keeping)
  {
  }

  lemma {:induction false} KeptIffCached(r: Run, k: nat, key: ContactKey)
    requires IsRun(r) && k <= |r.steps|
    ensures CountAll(r.states[k], key, Keeping) > 0 <==> key in r.states[k].cache
  {
    if k > 0 {
      KeptIffCached(r, k - 1, key);
      RunIsTidy(r, k - 1);
      assert Step(r.states[k - 1], r.steps[k - 1], r.states[k]);
      StepKeepsKept(r.states[k - 1], r.steps[k - 1], key);
    }
  }

  lemma ServedIffMade(r: Run, k: nat, key: ContactKey)
    requires IsRun(r) && k <= |r.steps|
    ensures Served(r.states[k], key) <==> Conversations(r.states[k], key) > 0
  {
    var rs := r.states[k].resolvers;
    EveryConversationIsAccountedFor(r, k, key);
    KeptIffCached(r, k, key);
    CountSome(rs, key, Holding, |rs|);
    CountSome(rs, key, Wasting, |rs|);
  }

  /** Step k makes a conversation for a key that has one. */
  predicate MakesAnotherAt(r: Run, k: nat, key: ContactKey)
    requires Linked(r) && k < |r.steps|
  {
    assert Step(r.states[k], r.steps[k], r.states[k + 1]);
    MakesFor(r.states[k], r.steps[k], key) && Served(r.states[k], key)
  }

  lemma ConversationsAt(r: Run, k: nat, key: ContactKey)
    requires IsRun(r) && k < |r.steps|
    ensures Conversations(r.states[k], key) <= Conversations(r.states[k + 1], key)
    ensures Conversations(r.states[k], key) <= 1 ==>
              (Conversations(r.states[k + 1], key) <= 1 <==> !MakesAnotherAt(r, k, key))
  {
    assert Step(r.states[k], r.steps[k], r.states[k + 1]);
    ConversationsStep(r.states[k], r.steps[k], key);
    ServedIffMade(r, k, key);
  }

  lemma {:induction false} ConversationsGrow(r: Run, j: nat, k: nat, key: ContactKey)
    requires IsRun(r) && j <= k <= |r.steps|
    ensures Conversations(r.states[j], key) <= Conversations(r.states[k], key)
    decreases k
  {
    if j < k {
      ConversationsGrow(r, j, k - 1, key);
      ConversationsAt(r, k - 1, key);
    }
  }

  /** Whatever races, a key has at most one conversation exactly when no request for one was
      carried out while it had one, be it cached, held by another resolver or wasted. */
  lemma AtMostOneConversation(r: Run, n: nat, key: ContactKey)
    requires IsRun(r) && n <= |r.steps|
    ensures Conversations(r.states[n], key) <= 1 <==> forall k | 0 <= k < n :: !MakesAnotherAt(r, k, key)
  {
    var holds := seq(|r.states|, k requires 0 <= k < |r.states| => Conversations(r.states[k], key) <= 1);
    var breaks := seq(|r.steps|, k requires 0 <= k < |r.steps| && Linked(r) => MakesAnotherAt(r, k, key));
    forall k | 0 <= k < |breaks| && holds[k]
      ensures holds[k + 1] <==> !breaks[k]
    {
      ConversationsAt(r, k, key);
    }
    HoldsUntilBroken(holds, breaks, n);
    forall k | 0 <= k <= n && holds[n]
      ensures holds[k]
    {
      ConversationsGrow(r, k, n, key);
    }
    assert holds[n] <==> forall k | 0 <= k <= n :: holds[k];
    assert forall k | 0 <= k < n :: breaks[k] <==> MakesAnotherAt(r, k, key);
  }

  /** So a cached key has exactly one. */
  lemma ExactlyOneWhenRacing(r: Run, n: nat, key: ContactKey)
    requires IsRun(r) && n <= |r.steps| && key in r.states[n].cache
    ensures Conversations(r.states[n], key) == 1 <==> forall k | 0 <= k < n :: !MakesAnotherAt(r, k, key)
  {
    ServedIffMade(r, n, key);
    AtMostOneConversation(r, n, key);
  }

  // ---- one at a time ----

  predicate IsLive(r: Resolver, key: ContactKey) {
    r.key == key && r.phase != Ended
  }

  /** Nobody else works on a message of the key when the step takes one up. */
  predicate BeginsAlone(s: State, a: Action, key: ContactKey) {
    a == Begin(key) ==> forall w | 0 <= w < |s.resolvers| :: !IsLive(s.resolvers[w], key)
  }

  /** As with one Inbox worker: a message of the key is taken up when no other is being worked on. */
  predicate OneAtATime(r: Run, key: ContactKey)
    requires Linked(r)
  {
    forall k {:trigger r.steps[k]} | 0 <= k < |r.steps| :: BeginsAlone(r.states[k], r.steps[k], key)
  }

  predicate Serial(s: State, key: ContactKey) {
    && (forall i, j | 0 <= i < j < |s.resolvers| :: !(IsLive(s.resolvers[i], key) && IsLive(s.resolvers[j], key)))
    && (forall w | 0 <= w < |s.resolvers| && IsLive(s.resolvers[w], key) ::
          s.resolvers[w].missed && !s.resolvers[w].wrote ==> key !in s.cache)
    && CountAll(s, key, Keeping) == One(key in s.cache)
  }

  lemma BeginKeepsSerial(s: State, b: ContactKey, key: ContactKey)
    requires Serial(s, key)
    requires b == key ==> forall w | 0 <= w < |s.resolvers| :: !IsLive(s.resolvers[w], key)
    ensures Serial(BeginStep(s, b), key)
  {
    CountAppended(s.resolvers, Resolver(b, Looking, false, false, false), key, Keeping, |s.resolvers|);
  }

  lemma KeptOnce(s: State, a: Action, key: ContactKey)
    requires Enabled(s, a) && Moves(a) && AllTidy(s) && Serial(s, key)
    ensures CountAll(Apply(s, a), key, Keeping) == One(key in Apply(s, a).cache)
  {
    CountStep(s, a, key, Keeping);
    assert Tidy(s, s.resolvers[a.w]);
  }

  lemma MoveKeepsSerial(s: State, a: Action, key: ContactKey)
    requires Enabled(s, a) && Moves(a) && AllTidy(s) && Serial(s, key)
    ensures Serial(Apply(s, a), key)
  {
    var s', w := Apply(s, a), a.w;
    KeptOnce(s, a, key);
    StepShape(s, a);
    assert Tidy(s, s.resolvers[w]);
    assert forall v | 0 <= v < |s.resolvers| && v != w :: s'.resolvers[v] == s.resolvers[v];
    assert IsLive(s'.resolvers[w], key) ==> IsLive(s.resolvers[w], key);
  }

  lemma StepKeepsSerial(s: State, a: Action, key: ContactKey)
    requires Enabled(s, a) && AllTidy(s) && Serial(s, key) && BeginsAlone(s, a, key)
    ensures Serial(Apply(s, a), key)
  {
    if a.Begin? {
      BeginKeepsSerial(s, a.key, key);
    } else if Moves(a) {
      MoveKeepsSerial(s, a, key);
    }
  }

  lemma {:induction false} RunIsSerial(r: Run, k: nat, key: ContactKey)
    requires IsRun(r) && OneAtATime(r, key) && k <= |r.steps|
    ensures Serial(r.states[k], key)
  {
    if k > 0 {
      RunIsSerial(r, k - 1, key);
      RunIsTidy(r, k - 1);
      assert Step(r.states[k - 1], r.steps[k - 1], r.states[k]);
      assert BeginsAlone(r.states[k - 1], r.steps[k - 1], key);
      StepKeepsSerial(r.states[k - 1], r.steps[k - 1], key);
    }
  }

  // ---- what wastes a conversation ----

  /** The three ways: Chatwoot's answer is lost, the write is refused, or the resolver
      stops in between. */
  predicate Wastes(s: State, a: Action, key: ContactKey)
    requires Enabled(s, a)
  {
    match a
    case MakeConversation(w, reply) => s.resolvers[w].key == key && reply == Unanswered
    case Upsert(w, db) => s.resolvers[w].key == key && s.resolvers[w].made && db == Refused
    case Stop(w) => s.resolvers[w].key == key && s.resolvers[w].made && s.resolvers[w].phase.NeedUpsert?
    case _ => false
  }

  lemma WasteStep(s: State, a: Action, key: ContactKey)
    requires Enabled(s, a) && AllTidy(s)
    ensures CountAll(Apply(s, a), key, Wasting) == CountAll(s, key, Wasting) + One(Wastes(s, a, key))
  {
    CountStep(s, a, key, Wasting);
    if Moves(a) {
      assert Tidy(s, s.resolvers[a.w]);
    }
  }

  predicate WastesAt(r: Run, k: nat, key: ContactKey)
    requires Linked(r) && k < |r.steps|
  {
    assert Step(r.states[k], r.steps[k], r.states[k + 1]);
    Wastes(r.states[k], r.steps[k], key)
  }

  function WasteMarks(r: Run, key: ContactKey): (marks: seq<bool>)
    requires Linked(r)
    ensures |marks| == |r.steps| && forall k | 0 <= k < |marks| :: marks[k] == WastesAt(r, k, key)
  {
    seq(|r.steps|, k requires 0 <= k < |r.steps| && Linked(r) => WastesAt(r, k, key))
  }

  function Trues(marks: seq<bool>, n: nat): nat
    requires n <= |marks|
  {
    if n == 0 then 0 else Trues(marks, n - 1) + One(marks[n - 1])
  }

  lemma {:induction false} NoTrues(marks: seq<bool>, n: nat)
    requires n <= |marks|
    ensures Trues(marks, n) == 0 <==> forall k | 0 <= k < n :: !marks[k]
  {
    if n > 0 {
      NoTrues(marks, n - 1);
    }
  }

  /** How many of the first n steps waste a conversation. */
  function WasteTo(r: Run, n: nat, key: ContactKey): nat
    requires Linked(r) && n <= |r.steps|
  {
    Trues(WasteMarks(r, key), n)
  }

  /** A resolver is counted as wasting exactly for such a step: they are equally many. */
  lemma {:induction false} WasteIsCounted(r: Run, n: nat, key: ContactKey)
    requires IsRun(r) && n <= |r.steps|
    ensures CountAll(r.states[n], key, Wasting) == WasteTo(r, n, key)
  {
    if n > 0 {
      WasteIsCounted(r, n - 1, key);
      RunIsTidy(r, n - 1);
      assert Step(r.states[n - 1], r.steps[n - 1], r.states[n]);
      WasteStep(r.states[n - 1], r.steps[n - 1], key);
    }
  }

  /** One at a time, a key has one conversation, cached or about to be, and one more for
      each step that wasted one: a lost answer, a refused write or a stop in between. */
  lemma OneConversation(r: Run, k: nat, key: ContactKey)
    requires IsRun(r) && OneAtATime(r, key) && k <= |r.steps|
    ensures var s := r.states[k];
            Conversations(s, key) == WasteTo(r, k, key)
              + One(key in s.cache || exists w | 0 <= w < |s.resolvers| :: Is(s.resolvers[w], key, Holding))
  {
    var s := r.states[k];
    RunIsSerial(r, k, key);
    RunIsTidy(r, k);
    EveryConversationIsAccountedFor(r, k, key);
    WasteIsCounted(r, k, key);
    forall w | 0 <= w < |s.resolvers| && Is(s.resolvers[w], key, Holding)
      ensures IsLive(s.resolvers[w], key) && key !in s.cache
    {
      assert Tidy(s, s.resolvers[w]);
    }
    CountOne(s.resolvers, key, Holding, |s.resolvers|);
  }

  /** Once the key is cached, it has exactly one conversation if and only if no step so
      far wasted one. */
  lemma ExactlyOneConversation(r: Run, k: nat, key: ContactKey)
    requires IsRun(r) && OneAtATime(r, key) && k <= |r.steps| && key in r.states[k].cache
    ensures Conversations(r.states[k], key) == 1
       <==> forall j | 0 <= j < k :: !WastesAt(r, j, key)
  {
    OneConversation(r, k, key);
    NoTrues(WasteMarks(r, key), k);
  }
}
