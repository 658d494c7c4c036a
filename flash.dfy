/** Flash messages: a per-session store from message type to the queue of
    messages of that type. Setting appends; getting hands the whole queue over
    and removes it, and the store itself disappears with its last type. */
module Flash {
  import opened Wrappers

  type Store = Option<map<string, seq<string>>>

  /** The stores the operations produce: no empty store and no empty queue. */
  predicate WellFormed(s: Store) {
    s.Some? ==> s.value != map[] && forall k :: k in s.value ==> s.value[k] != []
  }

  /** `req.flash(type)` on store `s`: the queue of that type or `[]`, and the
      store without that type, dropped altogether when nothing is left. */
  function Drain(s: Store, kind: string): (r: (seq<string>, Store))
    ensures r.0 == (if s.Some? && kind in s.value then s.value[kind] else [])
    ensures s.None? ==> r.1 == None
    ensures s.Some? && s.value - {kind} == map[] ==> r.1 == None
    ensures s.Some? && s.value - {kind} != map[] ==> r.1 == Some(s.value - {kind})
  {
    match s
    case None => ([], None)
    case Some(m) =>
      var msgs := if kind in m then m[kind] else [];
      var rest := m - {kind};
      (msgs, if rest == map[] then None else Some(rest))
  }

  /** `req.flash(type, msg)` on store `s`: the message is appended to the
      queue of that type, created when missing. */
  function Append(s: Store, kind: string, msg: string): (r: Store)
    ensures r.Some? && kind in r.value
    ensures r.value[kind] == (if s.Some? && kind in s.value then s.value[kind] else []) + [msg]
    ensures forall k :: k != kind ==>
      (k in r.value <==> s.Some? && k in s.value) && (s.Some? && k in s.value ==> r.value[k] == s.value[k])
  {
    var m := s.GetOr(map[]);
    Some(m[kind := (if kind in m then m[kind] else []) + [msg]])
  }

  lemma AppendWellFormed(s: Store, kind: string, msg: string)
    requires WellFormed(s)
    ensures WellFormed(Append(s, kind, msg))
  {
  }

  lemma DrainWellFormed(s: Store, kind: string)
    requires WellFormed(s)
    ensures WellFormed(Drain(s, kind).1)
  {
  }

  /** Messages come back in the order they were set, all of them, once: a
      second get of the same type returns nothing. */
  lemma AppendThenDrain(s: Store, kind: string, msgs: seq<string>, msg: string)
    requires (s.Some? && kind in s.value ==> s.value[kind] == msgs) && (s.None? || kind !in s.value ==> msgs == [])
    ensures Drain(Append(s, kind, msg), kind).0 == msgs + [msg]
    ensures Drain(Drain(Append(s, kind, msg), kind).1, kind).0 == []
  {
  }

  /** Getting one type leaves every other type's queue as it was. */
  lemma DrainKeepsOthers(s: Store, kind: string, other: string)
    requires other != kind
    ensures Drain(Drain(s, kind).1, other).0 == Drain(s, other).0
  {
    if s.Some? {
      var rest := s.value - {kind};
      assert other in rest <==> other in s.value;
      if other in rest {
        assert rest[other] == s.value[other];
      }
    }
  }

  /** The session's flash store. */
  class FlashSession {
    var store: Store

    ghost predicate Valid()
      reads this
    {
      WellFormed(store)
    }

    constructor ()
      ensures Valid() && store == None
    {
      store := None;
    }

    /** Set: append and return the type's queue. */
    method Set(kind: string, msg: string) returns (queue: seq<string>)
      requires Valid()
      modifies this
      ensures Valid()
      ensures store == Append(old(store), kind, msg)
      ensures queue == store.value[kind]
    {
      var m: map<string, seq<string>>;
      if store.None? {
        m := map[];
      } else {
        m := store.value;
      }
      var q: seq<string> := [];
      if kind in m {
        q := m[kind];
      }
      q := q + [msg];
      m := m[kind := q];
      store := Some(m);
      queue := q;
      AppendWellFormed(old(store), kind, msg);
    }

    /** Get: hand over the type's queue and remove it. */
    method Get(kind: string) returns (msgs: seq<string>)
      requires Valid()
      modifies this
      ensures Valid()
      ensures (msgs, store) == Drain(old(store), kind)
    {
      msgs := [];
      if store.Some? && kind in store.value {
        msgs := store.value[kind];
      }
      if store.Some? {
        var rest := store.value - {kind};
        if rest == map[] {
          store := None;
        } else {
          store := Some(rest);
        }
      }
      DrainWellFormed(old(store), kind);
    }
  }

  /** The middleware answer: the next handler, or an error passed to it. */
  datatype Install = Installed | SessionMissing(message: string)

  /** Installing `req.flash` needs a session. */
  function InstallFlash(hasSession: bool): (r: Install)
    ensures r.Installed? <==> hasSession
    ensures !hasSession ==> r.message == "Session is required for flash messages"
  {
    if hasSession then Installed else SessionMissing("Session is required for flash messages")
  }
}
