/** resolveContact and the contact part of processInbound as they run, proved to take
    the steps of the contact machine one after the other when nothing interleaves. */
module ContactService {
  import opened Wrappers
  import opened Messages
  import opened Contacts

  /** What the database and Chatwoot reply, should they be asked. */
  datatype Answers = Answers(lookFailed: bool, contact: Reply, hits: Option<seq<nat>>, conversation: Reply, write: Db)

  /** The next step of resolver w, by its phase. */
  function NextAction(w: nat, phase: Phase, answers: Answers): Action {
    match phase
    case Looking => Look(w, answers.lookFailed)
    case NeedContact => MakeContact(w, answers.contact)
    case Searching => FindContact(w, answers.hits)
    case NeedConversation(_) => MakeConversation(w, answers.conversation)
    case NeedUpsert(_) => Upsert(w, answers.write)
    case NeedPost(_) => PostMessage(w)
    case Ended => Stop(w)
  }

  function StepsLeft(phase: Phase): nat {
    match phase
    case Looking => 6
    case NeedContact => 5
    case Searching => 4
    case NeedConversation(_) => 3
    case NeedUpsert(_) => 2
    case NeedPost(_) => 1
    case Ended => 0
  }

  /** Chatwoot lists contacts of the account it is asked about. */
  predicate HitsInAccount(contacts: seq<Contact>, hits: Option<seq<nat>>, account: nat) {
    hits.Some? ==> forall c <- hits.value :: InAccount(contacts, c, account)
  }

  predicate Ready(s: State, w: nat, answers: Answers) {
    At(s, w) && HitsInAccount(s.contacts, answers.hits, s.resolvers[w].key.account)
  }

  function Next(s: State, w: nat, answers: Answers): State
    requires Ready(s, w, answers) && s.resolvers[w].phase != Ended
  {
    Apply(s, NextAction(w, s.resolvers[w].phase, answers))
  }

  /** A step takes resolver w nearer its end and leaves its key alone. */
  lemma NextGoesOn(s: State, w: nat, answers: Answers)
    requires Ready(s, w, answers) && s.resolvers[w].phase != Ended
    ensures var s' := Next(s, w, answers);
            && Ready(s', w, answers) && s'.resolvers[w].key == s.resolvers[w].key
            && StepsLeft(s'.resolvers[w].phase) < StepsLeft(s.resolvers[w].phase)
  {
  }

  /** Resolver w from where it is to its end. */
  ghost function Drive(s: State, w: nat, answers: Answers): State
    requires Ready(s, w, answers)
    decreases StepsLeft(s.resolvers[w].phase)
  {
    if s.resolvers[w].phase == Ended then s
    else
      NextGoesOn(s, w, answers);
      Drive(Next(s, w, answers), w, answers)
  }

  /** Driving a resolver to its end is a run of the contact machine. */
  lemma {:induction false} DriveRun(s: State, w: nat, answers: Answers) returns (r: Run)
    requires Ready(s, w, answers)
    ensures Linked(r) && r.states[0] == s && r.states[|r.steps|] == Drive(s, w, answers)
    decreases StepsLeft(s.resolvers[w].phase)
  {
    if s.resolvers[w].phase == Ended {
      r := Run([s], []);
    } else {
      NextGoesOn(s, w, answers);
      var a, s' := NextAction(w, s.resolvers[w].phase, answers), Next(s, w, answers);
      var rest := DriveRun(s', w, answers);
      r := Run([s] + rest.states, [a] + rest.steps);
      forall k {:trigger r.steps[k]} | 0 <= k < |r.steps|
        ensures Step(r.states[k], r.steps[k], r.states[k + 1])
      {
        if k > 0 {
          assert Step(rest.states[k - 1], rest.steps[k - 1], rest.states[k]);
        }
      }
    }
  }

  /** The contacts table. */
  class ContactStore {
    var rows: map<ContactKey, Ids>

    constructor ()
      ensures rows == map[]
    {
      rows := map[];
    }

    /** GetContact: `failed` is any error but not-found. */
    method GetContact(key: ContactKey, lookFailed: bool) returns (found: Option<Ids>, failed: bool)
      ensures failed == lookFailed
      ensures found == if !lookFailed && key in rows then Some(rows[key]) else None
    {
      failed := lookFailed;
      found := None;
      if !lookFailed && key in rows {
        found := Some(rows[key]);
      }
    }

    method UpsertContact(key: ContactKey, ids: Ids, db: Db) returns (failed: bool)
      modifies this
      ensures rows == if db == Refused then old(rows) else old(rows)[key := ids]
      ensures failed <==> db != Applied
    {
      failed := db != Applied;
      if db != Refused {
        rows := rows[key := ids];
      }
    }
  }

  datatype ContactAnswer = Created(id: nat) | AlreadyTaken | NoId

  /** Chatwoot's API for one installation. */
  class Chatwoot {
    var contacts: seq<Contact>
    var conversations: seq<Conversation>
    var posts: seq<Post>

    constructor ()
      ensures contacts == [] && conversations == [] && posts == []
    {
      contacts, conversations, posts := [], [], [];
    }

    method PostContact(c: Contact, reply: Reply) returns (answer: ContactAnswer)
      modifies this`contacts
      ensures contacts == if reply == NotDone || Taken(old(contacts), c) then old(contacts) else old(contacts) + [c]
      ensures answer == if reply != Answered then NoId
                        else if Taken(old(contacts), c) then AlreadyTaken else Created(|old(contacts)|)
    {
      answer := NoId;
      if reply == NotDone {
        return;
      }
      if Taken(contacts, c) {
        answer := AlreadyTaken;
      } else {
        answer := Created(|contacts|);
        contacts := contacts + [c];
      }
      if reply == Unanswered {
        answer := NoId;
      }
    }

    method PostConversation(contact: nat, key: ContactKey, reply: Reply) returns (id: Option<nat>)
      modifies this`conversations
      ensures conversations == if reply == NotDone then old(conversations)
                               else old(conversations) + [Conversation(contact, Some(key))]
      ensures id == if reply == Answered then Some(|old(conversations)|) else None
    {
      id := None;
      if reply != NotDone {
        if reply == Answered {
          id := Some(|conversations|);
        }
        conversations := conversations + [Conversation(contact, Some(key))];
      }
    }

    method PostMessageTo(key: ContactKey, conversation: nat)
      modifies this`posts
      ensures posts == old(posts) + [Post(key, conversation)]
    {
      posts := posts + [Post(key, conversation)];
    }
  }

  /** Payload[0] of the search. */
  function FirstHit(answers: Answers): Option<nat> {
    if answers.hits.Some? && answers.hits.value != [] then Some(answers.hits.value[0]) else None
  }

  /** The owner of the key's number as the bridge would have it: the contact it makes, the
      first hit if the number is taken, None if it learns of neither. */
  function OwnerOf(key: ContactKey, answers: Answers, contacts: seq<Contact>): Option<nat> {
    if answers.contact != Answered then None
    else if Taken(contacts, Contact(key.account, Some("+" + key.jid), Some(key.jid))) then FirstHit(answers)
    else Some(|contacts|)
  }

  /** The part of the server that handles inbound messages. */
  class Bridge {
    const store: ContactStore
    const chatwoot: Chatwoot

    constructor (store: ContactStore, chatwoot: Chatwoot)
      ensures this.store == store && this.chatwoot == chatwoot
    {
      this.store := store;
      this.chatwoot := chatwoot;
    }

    /** The store and Chatwoot are as the machine has them. */
    ghost predicate Shows(s: State)
      reads store, chatwoot
    {
      && store.rows == s.cache && chatwoot.contacts == s.contacts
      && chatwoot.conversations == s.conversations && chatwoot.posts == s.posts
    }

    /** cwCreateContact, and cwFindContactByPhone when the number is taken. */
    method CreateContact(key: ContactKey, answers: Answers, ghost s: State, ghost w: nat)
      returns (id: Option<nat>, ghost s': State)
      requires Shows(s) && Ready(s, w, answers) && s.resolvers[w].key == key && s.resolvers[w].phase == NeedContact
      modifies chatwoot`contacts
      ensures Shows(s') && Ready(s', w, answers) && s'.resolvers[w].key == key
      ensures Drive(s', w, answers) == Drive(s, w, answers)
      ensures s'.resolvers[w].phase == if id.Some? then NeedConversation(id.value) else Ended
      ensures id == OwnerOf(key, answers, old(chatwoot.contacts))
      ensures chatwoot.contacts == old(chatwoot.contacts)
              || chatwoot.contacts == old(chatwoot.contacts)
                                      + [Contact(key.account, Some("+" + key.jid), Some(key.jid))]
    {
      NextGoesOn(s, w, answers);
      s' := Next(s, w, answers);
      var answer := chatwoot.PostContact(ContactOf(key), answers.contact);
      if answer.Created? {
        return Some(answer.id), s';
      }
      if answer == NoId {
        return None, s';
      }
      NextGoesOn(s', w, answers);
      s' := Next(s', w, answers);
      id := None;
      if answers.hits.Some? && answers.hits.value != [] {
        id := Some(answers.hits.value[0]);
      }
    }

    /** resolveContact. */
    method ResolveContact(key: ContactKey, answers: Answers, ghost s: State, ghost w: nat)
      returns (ids: Option<Ids>, ghost s': State)
      requires Shows(s) && Ready(s, w, answers) && s.resolvers[w].key == key && s.resolvers[w].phase == Looking
      modifies chatwoot`contacts, chatwoot`conversations
      ensures Shows(s') && Ready(s', w, answers) && s'.resolvers[w].key == key
      ensures Drive(s', w, answers) == Drive(s, w, answers)
      ensures s'.resolvers[w].phase == if ids.Some? then NeedUpsert(ids.value) else Ended
      ensures !answers.lookFailed && key in store.rows ==>
                && ids == Some(store.rows[key])
                && chatwoot.contacts == old(chatwoot.contacts) && chatwoot.conversations == old(chatwoot.conversations)
      ensures answers.lookFailed ==> ids == None
      ensures !answers.lookFailed && key !in store.rows ==>
                var owner := OwnerOf(key, answers, old(chatwoot.contacts));
                && (ids.Some? <==> owner.Some? && answers.conversation == Answered)
                && (ids.Some? ==>
                      && ids == Some(Ids(owner.value, |old(chatwoot.conversations)|))
                      && chatwoot.conversations
                         == old(chatwoot.conversations) + [Conversation(owner.value, Some(key))])
    {
      NextGoesOn(s, w, answers);
      s' := Next(s, w, answers);
      var found, failed := store.GetContact(key, answers.lookFailed);
      if failed || found.Some? {
        return found, s';
      }
      var contact;
      contact, s' := CreateContact(key, answers, s', w);
      if contact.None? {
        return None, s';
      }
      NextGoesOn(s', w, answers);
      s' := Next(s', w, answers);
      var conversation := chatwoot.PostConversation(contact.value, key, answers.conversation);
      if conversation.None? {
        return None, s';
      }
      ids := Some(Ids(contact.value, conversation.value));
    }

    /** The end of processInbound: UpsertContact, which also runs after a hit, and the post. */
    method CacheAndPost(key: ContactKey, ids: Ids, answers: Answers, ghost s: State, ghost w: nat)
      returns (posted: bool)
      requires Shows(s) && Ready(s, w, answers)
      requires s.resolvers[w].key == key && s.resolvers[w].phase == NeedUpsert(ids)
      modifies store, chatwoot`posts
      ensures Shows(Drive(s, w, answers))
      ensures posted <==> answers.write == Applied
      ensures store.rows == if answers.write == Refused then old(store.rows) else old(store.rows)[key := ids]
      ensures chatwoot.posts == if posted then old(chatwoot.posts) + [Post(key, ids.conversation)]
                                else old(chatwoot.posts)
    {
      NextGoesOn(s, w, answers);
      ghost var s' := Next(s, w, answers);
      assert Drive(s', w, answers) == Drive(s, w, answers);
      var failed := store.UpsertContact(key, ids, answers.write);
      if failed {
        return false;
      }
      NextGoesOn(s', w, answers);
      s' := Next(s', w, answers);
      assert Drive(s', w, answers) == Drive(s, w, answers);
      chatwoot.PostMessageTo(key, ids.conversation);
      posted := true;
    }

    /** processInbound from its contact on: what it leaves is what the machine's
        resolver leaves, and it posts only what it has cached. */
    method ProcessInbound(key: ContactKey, answers: Answers, ghost s: State, ghost w: nat) returns (posted: bool)
      requires Shows(s) && Ready(s, w, answers) && s.resolvers[w].key == key && s.resolvers[w].phase == Looking
      modifies store, chatwoot
      ensures Shows(Drive(s, w, answers))
      ensures chatwoot.posts == if posted && key in store.rows
                                then old(chatwoot.posts) + [Post(key, store.rows[key].conversation)]
                                else old(chatwoot.posts)
      ensures posted ==> key in store.rows && answers.write == Applied && !answers.lookFailed
      ensures !answers.lookFailed && key in old(store.rows) ==>
                && store.rows == old(store.rows) && chatwoot.contacts == old(chatwoot.contacts)
                && chatwoot.conversations == old(chatwoot.conversations)
                && (posted <==> answers.write == Applied)
      ensures !answers.lookFailed && key !in old(store.rows) ==>
                var owner := OwnerOf(key, answers, old(chatwoot.contacts));
                && (posted <==> owner.Some? && answers.conversation == Answered && answers.write == Applied)
                && (posted ==>
                      && store.rows == old(store.rows)[key := Ids(owner.value, |old(chatwoot.conversations)|)]
                      && chatwoot.conversations
                         == old(chatwoot.conversations) + [Conversation(owner.value, Some(key))])
    {
      var ids, s' := ResolveContact(key, answers, s, w);
      if ids.None? {
        return false;
      }
      posted := CacheAndPost(key, ids.value, answers, s', w);
    }
  }
}
