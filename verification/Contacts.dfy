/** resolveContact and UpsertContact as steps of racing resolvers: the contacts table
    is a cache of ids that Chatwoot, which other people also write to, gave out. */
module Contacts {
  import opened Wrappers
  import opened Messages

  /** A row key of the contacts table. The account is the one in the tenant's row. */
  datatype ContactKey = ContactKey(tenant: string, account: nat, jid: string)

  function Phone(jid: string): string {
    "+" + jid
  }

  /** Chatwoot's own records. Ids are positions: nothing is ever deleted. */
  datatype Contact = Contact(account: nat, phone: Option<string>, identifier: Option<string>)
  datatype Conversation = Conversation(contact: nat, maker: Option<ContactKey>)

  datatype Ids = Ids(contact: nat, conversation: nat)

  /** How far processInbound is with its contact. */
  datatype Phase =
    | Looking
    | NeedContact
    | Searching
    | NeedConversation(contact: nat)
    | NeedUpsert(ids: Ids)
    | NeedPost(ids: Ids)
    | Ended

  /** One call of processInbound: did it miss the cache, make a conversation, write the cache? */
  datatype Resolver = Resolver(key: ContactKey, phase: Phase, missed: bool, made: bool, wrote: bool)

  datatype Post = Post(key: ContactKey, conversation: nat)

  datatype State = State(
    contacts: seq<Contact>,
    conversations: seq<Conversation>,
    cache: map<ContactKey, Ids>,
    resolvers: seq<Resolver>,
    posts: seq<Post>)

  const INIT := State([], [], map[], [], [])

  /** How a request to Chatwoot ends: answered, carried out but its answer lost, or not carried out. */
  datatype Reply = Answered | Unanswered | NotDone

  datatype Action =
    | Begin(key: ContactKey)
    | Look(w: nat, failed: bool)
    | MakeContact(w: nat, reply: Reply)
    | FindContact(w: nat, hits: Option<seq<nat>>)
    | MakeConversation(w: nat, reply: Reply)
    | Upsert(w: nat, db: Db)
    | PostMessage(w: nat)
    | Stop(w: nat)
    | AgentContact(record: Contact)
    | AgentConversation(contact: nat)

  // ---- Chatwoot's rules ----

  /** Phone and identifier are unique within an account. */
  predicate Clash(a: Contact, b: Contact) {
    && a.account == b.account
    && ((a.phone.Some? && a.phone == b.phone) || (a.identifier.Some? && a.identifier == b.identifier))
  }

  predicate Taken(contacts: seq<Contact>, c: Contact) {
    exists i | 0 <= i < |contacts| :: Clash(contacts[i], c)
  }

  function ContactOf(key: ContactKey): Contact {
    Contact(key.account, Some(Phone(key.jid)), Some(key.jid))
  }

  /** The contact has the key's phone number, in the key's account. */
  predicate Owns(contacts: seq<Contact>, c: nat, key: ContactKey) {
    c < |contacts| && contacts[c].account == key.account && contacts[c].phone == Some(Phone(key.jid))
  }

  // ---- steps ----

  predicate At(s: State, w: nat) {
    w < |s.resolvers|
  }

  function Move(s: State, w: nat, r: Resolver): State
    requires At(s, w)
  {
    s.(resolvers := s.resolvers[w := r])
  }

  function Goto(s: State, w: nat, phase: Phase): State
    requires At(s, w)
  {
    Move(s, w, s.resolvers[w].(phase := phase))
  }

  function BeginStep(s: State, key: ContactKey): State {
    s.(resolvers := s.resolvers + [Resolver(key, Looking, false, false, false)])
  }

  /** GetContact: a hit needs no request, any error but not-found ends the attempt. */
  function LookStep(s: State, w: nat, failed: bool): State
    requires At(s, w)
  {
    var key := s.resolvers[w].key;
    if failed then Goto(s, w, Ended)
    else if key in s.cache then Goto(s, w, NeedUpsert(s.cache[key]))
    else Move(s, w, s.resolvers[w].(phase := NeedContact, missed := true))
  }

  /** cwCreateContact: a refusal that says "already been taken" leads to a search by phone. */
  function MakeContactStep(s: State, w: nat, reply: Reply): State
    requires At(s, w)
  {
    var c := ContactOf(s.resolvers[w].key);
    if reply == NotDone then Goto(s, w, Ended)
    else if Taken(s.contacts, c) then
      if reply == Answered then Goto(s, w, Searching) else Goto(s, w, Ended)
    else
      var s1 := s.(contacts := s.contacts + [c]);
      if reply == Answered then Goto(s1, w, NeedConversation(|s.contacts|)) else Goto(s1, w, Ended)
  }

  /** cwFindContactByPhone: the first hit is used, whatever it is. */
  function FindContactStep(s: State, w: nat, hits: Option<seq<nat>>): State
    requires At(s, w)
  {
    if hits.None? || hits.value == [] then Goto(s, w, Ended)
    else Goto(s, w, NeedConversation(hits.value[0]))
  }

  /** cwCreateConversation: every request carried out makes one more conversation. */
  function MakeConversationStep(s: State, w: nat, reply: Reply): State
    requires At(s, w) && s.resolvers[w].phase.NeedConversation?
  {
    var r := s.resolvers[w];
    if reply == NotDone then Goto(s, w, Ended)
    else
      var s1 := s.(conversations := s.conversations + [Conversation(r.phase.contact, Some(r.key))]);
      var ids := Ids(r.phase.contact, |s.conversations|);
      Move(s1, w, r.(phase := if reply == Answered then NeedUpsert(ids) else Ended, made := true))
  }

  /** UpsertContact, which also runs after a hit: the last writer wins. */
  function UpsertStep(s: State, w: nat, db: Db): State
    requires At(s, w) && s.resolvers[w].phase.NeedUpsert?
  {
    var r := s.resolvers[w];
    if db == Refused then Goto(s, w, Ended)
    else
      Move(s.(cache := s.cache[r.key := r.phase.ids]), w,
           r.(phase := if db == Applied then NeedPost(r.phase.ids) else Ended, wrote := true))
  }

  /** postChatwootMessage: the request is made, whatever its answer. */
  function PostStep(s: State, w: nat): State
    requires At(s, w) && s.resolvers[w].phase.NeedPost?
  {
    var r := s.resolvers[w];
    Goto(s.(posts := s.posts + [Post(r.key, r.phase.ids.conversation)]), w, Ended)
  }

  /** What can happen. A search answers with contacts of the account, none of them
      promised to have the phone; agents make contacts and conversations by themselves. */
  predicate Enabled(s: State, a: Action) {
    match a
    case Begin(_) => true
    case Look(w, _) => At(s, w) && s.resolvers[w].phase == Looking
    case MakeContact(w, _) => At(s, w) && s.resolvers[w].phase == NeedContact
    case FindContact(w, hits) =>
      && At(s, w) && s.resolvers[w].phase == Searching
      && (hits.Some? ==> forall c <- hits.value :: InAccount(s.contacts, c, s.resolvers[w].key.account))
    case MakeConversation(w, _) => At(s, w) && s.resolvers[w].phase.NeedConversation?
    case Upsert(w, _) => At(s, w) && s.resolvers[w].phase.NeedUpsert?
    case PostMessage(w) => At(s, w) && s.resolvers[w].phase.NeedPost?
    case Stop(w) => At(s, w)
    case AgentContact(c) => !Taken(s.contacts, c)
    case AgentConversation(c) => c < |s.contacts|
  }

  predicate InAccount(contacts: seq<Contact>, c: nat, account: nat) {
    c < |contacts| && contacts[c].account == account
  }

  function Apply(s: State, a: Action): State
    requires Enabled(s, a)
  {
    match a
    case Begin(key) => BeginStep(s, key)
    case Look(w, failed) => LookStep(s, w, failed)
    case MakeContact(w, reply) => MakeContactStep(s, w, reply)
    case FindContact(w, hits) => FindContactStep(s, w, hits)
    case MakeConversation(w, reply) => MakeConversationStep(s, w, reply)
    case Upsert(w, db) => UpsertStep(s, w, db)
    case PostMessage(w) => PostStep(s, w)
    case Stop(w) => Goto(s, w, Ended)
    case AgentContact(c) => s.(contacts := s.contacts + [c])
    case AgentConversation(c) => s.(conversations := s.conversations + [Conversation(c, None)])
  }

  // ---- runs ----

  predicate Step(s: State, a: Action, s': State) {
    Enabled(s, a) && s' == Apply(s, a)
  }

  datatype Run = Run(states: seq<State>, steps: seq<Action>)

  predicate Linked(r: Run) {
    && |r.states| == |r.steps| + 1
    && forall k {:trigger r.steps[k]} | 0 <= k < |r.steps| :: Step(r.states[k], r.steps[k], r.states[k + 1])
  }

  predicate IsRun(r: Run) {
    Linked(r) && r.states[0] == INIT
  }
}
