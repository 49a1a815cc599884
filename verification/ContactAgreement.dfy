/** When the cached ids are right: who owns the contacts, and where inbound messages go. */
module ContactAgreement {
  import opened Wrappers
  import opened Messages
  import opened Contacts

  /** A conversation with the owner of the key's phone number. */
  predicate Reaches(s: State, conversation: nat, key: ContactKey) {
    conversation < |s.conversations| && Owns(s.contacts, s.conversations[conversation].contact, key)
  }

  predicate RightIds(s: State, ids: Ids, key: ContactKey) {
    Reaches(s, ids.conversation, key) && s.conversations[ids.conversation].contact == ids.contact
  }

  predicate RightResolver(s: State, r: Resolver) {
    match r.phase
    case NeedConversation(c) => Owns(s.contacts, c, r.key)
    case NeedUpsert(ids) => RightIds(s, ids, r.key)
    case NeedPost(ids) => RightIds(s, ids, r.key)
    case _ => true
  }

  /** Everything cached, held by a resolver or posted to is the right contact's. */
  predicate Right(s: State) {
    && (forall key <- s.cache :: RightIds(s, s.cache[key], key))
    && (forall w | 0 <= w < |s.resolvers| :: RightResolver(s, s.resolvers[w]))
    && (forall p <- s.posts :: Reaches(s, p.conversation, p.key))
  }

  /** Chatwoot's own constraint. */
  predicate NoClash(contacts: seq<Contact>) {
    forall i, j | 0 <= i < j < |contacts| :: !Clash(contacts[i], contacts[j])
  }

  /** A phone number has one owner. */
  lemma OneOwner(contacts: seq<Contact>, a: nat, b: nat, key: ContactKey, key': ContactKey)
    requires NoClash(contacts) && Owns(contacts, a, key) && Owns(contacts, b, key')
    requires key.account == key'.account && key.jid == key'.jid
    ensures a == b
  {
  }

  /** Records are only added. */
  predicate Grows(s: State, s': State) {
    s.contacts <= s'.contacts && s.conversations <= s'.conversations
  }

  lemma StepGrows(s: State, a: Action)
    requires Enabled(s, a)
    ensures Grows(s, Apply(s, a))
  {
  }

  lemma StepKeepsNoClash(s: State, a: Action)
    requires Enabled(s, a) && NoClash(s.contacts)
    ensures NoClash(Apply(s, a).contacts)
  {
  }

  /** The search's first hit, if any, owns the phone number it was asked for. */
  predicate GoodSearch(s: State, a: Action)
    requires Enabled(s, a)
  {
    a.FindContact? && a.hits.Some? && a.hits.value != [] ==> Owns(s.contacts, a.hits.value[0], s.resolvers[a.w].key)
  }

  lemma StillRight(s: State, s': State)
    requires Right(s) && Grows(s, s')
    ensures forall key <- s.cache :: RightIds(s', s.cache[key], key)
    ensures forall w | 0 <= w < |s.resolvers| :: RightResolver(s', s.resolvers[w])
    ensures forall p <- s.posts :: Reaches(s', p.conversation, p.key)
  {
  }

  /** The resolver a step moves, and what it leaves in the cache and the posts. */
  lemma MoveStaysRight(s: State, a: Action)
    requires Enabled(s, a) && Right(s) && !a.Begin? && !a.AgentContact? && !a.AgentConversation?
    ensures var s' := Apply(s, a);
            && s'.resolvers == s.resolvers[a.w := s'.resolvers[a.w]]
            && (RightResolver(s', s'.resolvers[a.w]) <==> GoodSearch(s, a))
  {
    assert RightResolver(s, s.resolvers[a.w]);
    StepGrows(s, a);
    StillRight(s, Apply(s, a));
  }

  /** Only UpsertContact writes the cache, and only postChatwootMessage posts. */
  lemma WritesStayRight(s: State, a: Action)
    requires Enabled(s, a) && Right(s)
    ensures var s' := Apply(s, a);
            && (forall key <- s'.cache :: RightIds(s', s'.cache[key], key))
            && (forall p <- s'.posts :: Reaches(s', p.conversation, p.key))
  {
    StepGrows(s, a);
    StillRight(s, Apply(s, a));
    if a.Upsert? || a.PostMessage? {
      assert RightResolver(s, s.resolvers[a.w]);
    }
  }

  lemma ResolversStayRight(s: State, a: Action)
    requires Enabled(s, a) && Right(s)
    ensures var s' := Apply(s, a);
            GoodSearch(s, a) <==> forall w | 0 <= w < |s'.resolvers| :: RightResolver(s', s'.resolvers[w])
  {
    var s' := Apply(s, a);
    StepGrows(s, a);
    StillRight(s, s');
    if a.Begin? || a.AgentContact? || a.AgentConversation? {
      assert forall w | 0 <= w < |s.resolvers| :: s'.resolvers[w] == s.resolvers[w];
    } else {
      MoveStaysRight(s, a);
      assert forall w | 0 <= w < |s.resolvers| && w != a.w :: s'.resolvers[w] == s.resolvers[w];
    }
  }

  /** A step keeps everything right exactly when it is not a search whose first hit is somebody else. */
  lemma StepStaysRight(s: State, a: Action)
    requires Enabled(s, a) && Right(s)
    ensures Right(Apply(s, a)) <==> GoodSearch(s, a)
  {
    WritesStayRight(s, a);
    ResolversStayRight(s, a);
  }

  /** Over a whole run, whatever interleaves: every state is right exactly when every
      search the run makes puts the owner of the phone number first. */
  lemma {:induction false} RightIffGoodSearches(r: Run, n: nat)
    requires IsRun(r) && n <= |r.steps|
    ensures (forall k | 0 <= k <= n :: Right(r.states[k]))
       <==> (forall k {:trigger r.steps[k]} | 0 <= k < n :: GoodSearch(r.states[k], r.steps[k]))
  {
    if n > 0 {
      RightIffGoodSearches(r, n - 1);
      assert Step(r.states[n - 1], r.steps[n - 1], r.states[n]);
      if Right(r.states[n - 1]) {
        StepStaysRight(r.states[n - 1], r.steps[n - 1]);
      }
    }
  }

  lemma {:induction false} RunKeepsNoClash(r: Run, n: nat)
    requires IsRun(r) && n <= |r.steps|
    ensures NoClash(r.states[n].contacts)
  {
    if n > 0 {
      RunKeepsNoClash(r, n - 1);
      assert Step(r.states[n - 1], r.steps[n - 1], r.states[n]);
      StepKeepsNoClash(r.states[n - 1], r.steps[n - 1]);
    }
  }

  lemma {:induction false} RunGrows(r: Run, j: nat, k: nat)
    requires Linked(r) && j <= k <= |r.steps|
    ensures Grows(r.states[j], r.states[k])
    decreases k
  {
    if j < k {
      RunGrows(r, j, k - 1);
      assert Step(r.states[k - 1], r.steps[k - 1], r.states[k]);
      StepGrows(r.states[k - 1], r.steps[k - 1]);
    }
  }

  /** Ids somebody may use for the key: cached, or about to be written or posted to. */
  predicate InUse(s: State, key: ContactKey, ids: Ids) {
    || (key in s.cache && s.cache[key] == ids)
    || (exists w | 0 <= w < |s.resolvers| ::
          && s.resolvers[w].key == key
          && (s.resolvers[w].phase == NeedUpsert(ids) || s.resolvers[w].phase == NeedPost(ids)))
  }

  /** All writers agree on the contact at all times, also across the tenants of an
      account: ids in use at any two states of a run name the same contact, which
      exists and owns the phone number. */
  lemma WritersAgree(r: Run, j: nat, k: nat, key: ContactKey, key': ContactKey, ids: Ids, ids': Ids)
    requires IsRun(r) && j <= k <= |r.steps|
    requires forall i {:trigger r.steps[i]} | 0 <= i < |r.steps| :: GoodSearch(r.states[i], r.steps[i])
    requires InUse(r.states[j], key, ids) && InUse(r.states[k], key', ids')
    requires key.account == key'.account && key.jid == key'.jid
    ensures ids.contact == ids'.contact
    ensures RightIds(r.states[k], ids, key) && RightIds(r.states[k], ids', key')
  {
    RightIffGoodSearches(r, |r.steps|);
    assert Right(r.states[j]) && Right(r.states[k]);
    assert RightIds(r.states[j], ids, key) && RightIds(r.states[k], ids', key');
    RunGrows(r, j, k);
    RunKeepsNoClash(r, k);
    OneOwner(r.states[k].contacts, ids.contact, ids'.contact, key, key');
  }

  /** Every inbound message is posted to an existing conversation with the owner of its sender's number. */
  lemma PostsReachTheOwner(r: Run, k: nat, p: Post)
    requires IsRun(r) && k <= |r.steps| && p in r.states[k].posts
    requires forall i {:trigger r.steps[i]} | 0 <= i < |r.steps| :: GoodSearch(r.states[i], r.steps[i])
    ensures Reaches(r.states[k], p.conversation, p.key)
  {
    RightIffGoodSearches(r, |r.steps|);
    assert Right(r.states[k]);
  }

  // ---- a search that finds somebody else first ----

  const ANA := ContactKey("t", 1, "55")
  const OTHER := Contact(1, Some("+559"), None)
  const OWNER := Contact(1, Some("+55"), None)

  lemma AnasPhone()
    ensures OWNER.phone == Some(Phone(ANA.jid)) && OTHER.phone != Some(Phone(ANA.jid))
  {
    assert "+" + "55" == "+55";
    assert |OTHER.phone.value| != |"+55"|;
  }

  /** Ana's resolver before its search: +55 is taken. */
  lemma NumberTaken() returns (r: Run)
    ensures IsRun(r) && |r.steps| == 5
    ensures r.states[5] == State([OTHER, OWNER], [], map[], [Resolver(ANA, Searching, true, false, false)], [])
  {
    var s1 := INIT.(contacts := [OTHER]);
    var s2 := INIT.(contacts := [OTHER, OWNER]);
    var s3 := s2.(resolvers := [Resolver(ANA, Looking, false, false, false)]);
    var s4 := s2.(resolvers := [Resolver(ANA, NeedContact, true, false, false)]);
    var s5 := s2.(resolvers := [Resolver(ANA, Searching, true, false, false)]);
    AnasPhone();
    assert Step(INIT, AgentContact(OTHER), s1);
    assert Step(s1, AgentContact(OWNER), s2);
    assert Step(s2, Begin(ANA), s3);
    assert Step(s3, Look(0, false), s4);
    assert Clash(s4.contacts[1], ContactOf(ANA));
    assert Step(s4, MakeContact(0, Answered), s5);
    r := Run([INIT, s1, s2, s3, s4, s5],
             [AgentContact(OTHER), AgentContact(OWNER), Begin(ANA), Look(0, false), MakeContact(0, Answered)]);
  }

  /** Ana's message is posted to somebody else's conversation: the search for +55 lists +559 first. */
  lemma MisleadingSearch() returns (r: Run)
    ensures IsRun(r)
    ensures var s := r.states[|r.steps|];
            s.posts == [Post(ANA, 0)] && Owns(s.contacts, 1, ANA) && !Reaches(s, 0, ANA)
  {
    var asked := NumberTaken();
    var s5 := asked.states[5];
    var s6 := s5.(resolvers := [Resolver(ANA, NeedConversation(0), true, false, false)]);
    var ids := Ids(0, 0);
    var s7 := s6.(conversations := [Conversation(0, Some(ANA))],
                  resolvers := [Resolver(ANA, NeedUpsert(ids), true, true, false)]);
    var s8 := s7.(cache := map[ANA := ids], resolvers := [Resolver(ANA, NeedPost(ids), true, true, true)]);
    var s9 := s8.(posts := [Post(ANA, 0)], resolvers := [Resolver(ANA, Ended, true, true, true)]);
    assert Step(s5, FindContact(0, Some([0, 1])), s6);
    assert Step(s6, MakeConversation(0, Answered), s7);
    assert Step(s7, Upsert(0, Applied), s8);
    assert Step(s8, PostMessage(0), s9);
    r := Run(asked.states + [s6, s7, s8, s9],
             asked.steps + [FindContact(0, Some([0, 1])), MakeConversation(0, Answered),
                            Upsert(0, Applied), PostMessage(0)]);
    forall k {:trigger r.steps[k]} | 0 <= k < |r.steps|
      ensures Step(r.states[k], r.steps[k], r.states[k + 1])
    {
      if k < 5 {
        assert Step(asked.states[k], asked.steps[k], asked.states[k + 1]);
      }
    }
    AnasPhone();
  }
}
