/**
 * Channel records: the in-memory ChannelContent object a channel owner
 * updates, the serialized value the replicated channel store keeps, and the
 * store-level effect of a join or a leave.
 */
module Channels {
  import opened Ids
  import opened Optional

  /** A value the channel store keeps under a key: a channel record, or content of some other kind. */
  datatype PastContent =
    | ChannelRecord(id: Id, name: string, clients: set<string>)
    | OtherContent

  /** The channel store: content keyed by overlay identifier. */
  type Store = map<Id, PastContent>

  /** Inserts file content under the content's own id, so every channel record sits at its id. */
  ghost predicate Keyed(store: Store)
  {
    forall k :: k in store && store[k].ChannelRecord? ==> store[k].id == k
  }

  /** A channel: its identifier, its name and the set of client names subscribed to it. */
  class ChannelContent {
    const id: Id
    const name: string
    var clients: set<string>

    /** A new record for a channel nobody has joined yet. */
    constructor (id: Id, name: string)
      ensures this.id == id && this.name == name && clients == {}
    {
      this.id := id;
      this.name := name;
      clients := {};
    }

    /** Rebuilds the object from the value the store handed back. */
    constructor FromRecord(r: PastContent)
      requires r.ChannelRecord?
      ensures Snapshot() == r
    {
      id := r.id;
      name := r.name;
      clients := r.clients;
    }

    /** `getClients().add(c)`: the client set absorbs a name it already holds. */
    method AddClient(c: string) returns (added: bool)
      modifies this`clients
      ensures clients == old(clients) + {c}
      ensures added <==> c !in old(clients)
    {
      added := c !in clients;
      clients := clients + {c};
    }

    /** `getClients().remove(c)`: removing an absent name changes nothing. */
    method RemoveClient(c: string) returns (removed: bool)
      modifies this`clients
      ensures clients == old(clients) - {c}
      ensures removed <==> c in old(clients)
    {
      removed := c in clients;
      clients := clients - {c};
    }

    /** The value this record is stored as. */
    function Snapshot(): (r: PastContent)
      reads this
      ensures r.ChannelRecord? && r.id == id && r.name == name && r.clients == clients
    {
      ChannelRecord(id, name, clients)
    }

    /** What the store keeps when this record is inserted: always this record, whatever was there. */
    function CheckInsert(key: Id, existing: Option<PastContent>): (r: PastContent)
      reads this
      ensures r == Snapshot()
    {
      Snapshot()
    }

    /** Channel records change over time, so the store must accept overwrites. */
    function IsMutable(): (mutable: bool)
      ensures mutable
    {
      true
    }

    function ToString(): (s: string)
      reads this
      ensures |s| == |name| + 16
      ensures s[..15] == "ChannelContent[" && s[15..|s| - 1] == name && s[|s| - 1] == ']'
    {
      "ChannelContent[" + name + "]"
    }
  }

  /** Lookup-or-create: the record stored at `key`, or a fresh empty one at `key` named `name`. */
  function FetchOrCreate(store: Store, key: Id, name: string): (r: PastContent)
    ensures r.ChannelRecord?
    ensures Keyed(store) ==> r.id == key
    ensures r in store.Values || r == ChannelRecord(key, name, {})
    ensures key in store && store[key].ChannelRecord? ==> r == store[key]
    ensures !(key in store && store[key].ChannelRecord?) ==> r == ChannelRecord(key, name, {})
  {
    if key in store && store[key].ChannelRecord? then store[key] else ChannelRecord(key, name, {})
  }

  /** The store after inserting `r`: overwrite is always allowed, the last writer wins. */
  function Persist(store: Store, r: PastContent): (s: Store)
    requires r.ChannelRecord?
    ensures r.id in s && s[r.id] == r
    ensures forall k :: k != r.id ==> (k in s <==> k in store)
    ensures forall k :: k in store && k != r.id ==> s[k] == store[k]
  {
    store[r.id := r]
  }

  /** The client names of the channel at `key`, as a lookup would present them. */
  function Members(store: Store, key: Id, name: string): set<string>
  {
    FetchOrCreate(store, key, name).clients
  }

  /** The store after the owner processed a join of `client` and persisted the record. */
  function Joined(store: Store, key: Id, name: string, client: string): (s: Store)
    ensures Keyed(store) ==> Keyed(s) && OnlyKeyChanged(store, s, key)
    ensures Keyed(store) ==> key in s && s[key].ChannelRecord? && s[key].clients == Members(store, key, name) + {client}
  {
    var r := FetchOrCreate(store, key, name);
    Persist(store, r.(clients := r.clients + {client}))
  }

  /** The store after the owner processed a leave of `client` and persisted the record. */
  function Left(store: Store, key: Id, name: string, client: string): (s: Store)
    ensures Keyed(store) ==> Keyed(s) && OnlyKeyChanged(store, s, key)
    ensures Keyed(store) ==> key in s && s[key].ChannelRecord? && s[key].clients == Members(store, key, name) - {client}
  {
    var r := FetchOrCreate(store, key, name);
    Persist(store, r.(clients := r.clients - {client}))
  }

  /** Every key but `key` keeps its content. */
  ghost predicate OnlyKeyChanged(before: Store, after: Store, key: Id)
  {
    && (forall k :: k != key ==> (k in after <==> k in before))
    && (forall k :: k in before && k != key ==> after[k] == before[k])
  }

  /**
   * The members a later lookup of `key` sees after a join are the old members
   * plus the client, under whatever name that lookup passes (`anyName`): the
   * stored record wins over the name, so only the join's own name matters.
   */
  lemma JoinAddsMember(store: Store, key: Id, name: string, client: string, anyName: string)
    requires Keyed(store)
    ensures var s := Joined(store, key, name, client);
      && Keyed(s) && key in s && s[key].ChannelRecord?
      && Members(s, key, anyName) == Members(store, key, name) + {client}
      && OnlyKeyChanged(store, s, key)
  {
  }

  /**
   * The members a later lookup of `key` sees after a leave are the old members
   * without the client, under whatever name that lookup passes (`anyName`).
   */
  lemma LeaveRemovesMember(store: Store, key: Id, name: string, client: string, anyName: string)
    requires Keyed(store)
    ensures var s := Left(store, key, name, client);
      && Keyed(s) && key in s && s[key].ChannelRecord?
      && Members(s, key, anyName) == Members(store, key, name) - {client}
      && OnlyKeyChanged(store, s, key)
  {
  }

  /** Repeating a join changes nothing. */
  lemma JoinIdempotent(store: Store, key: Id, name: string, client: string)
    requires Keyed(store)
    ensures Joined(Joined(store, key, name, client), key, name, client) == Joined(store, key, name, client)
  {
    var s := Joined(store, key, name, client);
    var r := FetchOrCreate(store, key, name);
    assert FetchOrCreate(s, key, name) == r.(clients := r.clients + {client});
    assert r.clients + {client} + {client} == r.clients + {client};
  }

  /** Leaving a stored channel one does not belong to leaves the store as it was. */
  lemma LeaveAbsentKeepsStore(store: Store, key: Id, name: string, client: string)
    requires Keyed(store)
    requires key in store && store[key].ChannelRecord? && client !in store[key].clients
    ensures Left(store, key, name, client) == store
  {
    var r := store[key];
    assert r.(clients := r.clients - {client}) == r;
  }

  /** Leaving a never-seen channel still creates its (empty) record. */
  lemma LeaveUnknownCreatesRecord(store: Store, key: Id, name: string, client: string)
    requires key !in store
    ensures Left(store, key, name, client) == store[key := ChannelRecord(key, name, {})]
  {
    assert {} - {client} == {};
  }

  /** Two serialized joins of "a" and then "b" to a never-seen channel leave members {"a", "b"}. */
  lemma SequentialJoins(store: Store, key: Id, name: string)
    requires Keyed(store) && key !in store
    ensures Members(Joined(Joined(store, key, name, "a"), key, name, "b"), key, name) == {"a", "b"}
  {
    JoinAddsMember(store, key, name, "a", name);
    JoinAddsMember(Joined(store, key, name, "a"), key, name, "b", name);
  }

  /**
   * A join followed by a leave of the same client on a never-seen channel leaves
   * the record in place with no members, and a later join finds and reuses it.
   */
  lemma JoinThenLeave(store: Store, key: Id, name: string, client: string, later: string)
    requires Keyed(store) && key !in store
    ensures var s := Left(Joined(store, key, name, client), key, name, client);
      && key in s && s[key] == ChannelRecord(key, name, {})
      && Joined(s, key, name, later)[key] == ChannelRecord(key, name, {later})
  {
    JoinAddsMember(store, key, name, client, name);
    var j := Joined(store, key, name, client);
    assert j[key] == ChannelRecord(key, name, {client});
    LeaveRemovesMember(j, key, name, client, name);
    assert {client} - {client} == {};
  }

  /**
   * The lost update of the unserialized design: two joins that both fetched the
   * same snapshot persist one after the other, and the first join vanishes.
   */
  lemma ConcurrentJoinsLoseUpdate(store: Store, key: Id, name: string, a: string, b: string)
    requires key !in store && a != b
    ensures var r := FetchOrCreate(store, key, name);
      var s := Persist(Persist(store, r.(clients := r.clients + {a})), r.(clients := r.clients + {b}));
      && Members(s, key, name) == {b}
      && a !in Members(s, key, name)
  {
  }
}
