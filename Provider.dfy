/**
 * The provider that owns the list of active notifications: creation with
 * defaults and a bounded length, removal and update by id, clearing, the
 * typed shorthand creators and the promise-bound helper.
 *
 * Every operation of the source replaces the list with the value of a pure
 * updater; those updaters are the functions below, and the class `Provider`
 * holds the list and applies them.
 */
module NotificationProvider {
  import opened Records

  /** `maxNotifications`, `defaultDuration` (None is persistent) and `defaultPosition`. */
  datatype Config = Config(maxNotifications: int, defaultDuration: Option<int>, defaultPosition: string)

  /** The configuration a provider gets when none of its settings is given. */
  const DefaultConfig: Config := Config(5, Some(5000), "top-right")

  /** No record in `s` carries `id`. */
  predicate Fresh(s: seq<Record>, id: string) {
    forall k | 0 <= k < |s| :: s[k].id != id
  }

  /** No two records of `s` share an id. */
  predicate UniqueIds(s: seq<Record>) {
    forall i, j | 0 <= i < j < |s| :: s[i].id != s[j].id
  }

  // ---------------------------------------------------------------------------
  // Creation

  /** The record the creation operation builds from the caller's options and a new id. */
  function MakeRecord(id: string, o: Options, cfg: Config): (r: Record)
    ensures r.id == id
    ensures r.kind == (if Truthy(o.kind) then o.kind.value else "info") && r.kind != ""
    ensures r.message == (if Truthy(o.message) then o.message.value else "Notification") && r.message != ""
    // only an absent duration takes the default: an explicit null stays persistent
    ensures o.duration.Defined? ==> r.duration == o.duration.value
    ensures o.duration.Undefined? ==> r.duration == cfg.defaultDuration
    // the close control is shown unless it is explicitly switched off
    ensures r.showClose <==> o.showClose != Defined(false)
    ensures r.customStyles == (if o.customStyles.Some? then o.customStyles.value else map[])
    ensures r.position == (if Truthy(o.position) then o.position.value else cfg.defaultPosition)
  {
    Record(
      id,
      OrElse(o.kind, "info"),
      OrElse(o.message, "Notification"),
      if o.duration.Defined? then o.duration.value else cfg.defaultDuration,
      if o.showClose.Defined? then o.showClose.value else true,
      if o.customStyles.Some? then o.customStyles.value else map[],
      OrElse(o.position, cfg.defaultPosition))
  }

  /** JavaScript's `s.slice(start)` for a start that is not negative. */
  function SliceFrom(s: seq<Record>, start: nat): seq<Record> {
    if start >= |s| then [] else s[start..]
  }

  /** The newest `m` records of `s`: all of them when there are fewer, none when `m` is not positive. */
  function Newest(s: seq<Record>, m: int): seq<Record> {
    s[|s| - Min(|s|, Max(m, 0))..]
  }

  /**
   * The list after appending `n` to `prev` under the bound `max`: the oldest
   * records are dropped first, and the new record is always the last one kept.
   */
  function AddTo(prev: seq<Record>, n: Record, max: int): (r: seq<Record>)
    ensures |r| == (if max <= 0 then 0 else Min(|prev| + 1, max))
    ensures r == (prev + [n])[|prev| + 1 - |r|..]
    ensures max >= 1 ==> |r| <= max && r[|r| - 1] == n
    ensures |prev| < max ==> r == prev + [n]
  {
    var next := prev + [n];
    if |next| > max then SliceFrom(next, |next| - max) else next
  }

  /** A run of creations, one record after another. */
  function AddAll(prev: seq<Record>, ns: seq<Record>, max: int): seq<Record>
    decreases |ns|
  {
    if ns == [] then prev else AddAll(AddTo(prev, ns[0], max), ns[1..], max)
  }

  lemma NewestOfNewest(s: seq<Record>, t: seq<Record>, m: int)
    ensures Newest(Newest(s, m) + t, m) == Newest(s + t, m)
  {
    var bound := Max(m, 0);
    var k := Min(|s|, bound);
    var a := s[|s| - k..];
    assert a + t == (s + t)[|s| - k..];
    assert Min(k + |t|, bound) == Min(|s| + |t|, bound);
  }

  /** However many records are created, the list is the newest `max` of all of them. */
  lemma {:induction false} AddAllKeepsNewest(prev: seq<Record>, ns: seq<Record>, max: int)
    ensures AddAll(prev, ns, max) == if ns == [] then prev else Newest(prev + ns, max)
    decreases |ns|
  {
    if ns != [] {
      var next := AddTo(prev, ns[0], max);
      assert next == Newest(prev + [ns[0]], max);
      assert prev + [ns[0]] + ns[1..] == prev + ns;
      AddAllKeepsNewest(next, ns[1..], max);
      if ns[1..] != [] {
        NewestOfNewest(prev + [ns[0]], ns[1..], max);
      }
    }
  }

  /** Creating a record with a fresh id keeps the ids of the list distinct. */
  lemma AddPreservesUnique(prev: seq<Record>, n: Record, max: int)
    requires UniqueIds(prev) && Fresh(prev, n.id)
    ensures UniqueIds(AddTo(prev, n, max))
  {
    AppendUnique(prev, n);
    var r := AddTo(prev, n, max);
    SuffixUnique(prev + [n], |prev| + 1 - |r|);
  }

  lemma AppendUnique(s: seq<Record>, n: Record)
    requires UniqueIds(s) && Fresh(s, n.id)
    ensures UniqueIds(s + [n])
  {
    var next := s + [n];
    forall i, j | 0 <= i < j < |next| ensures next[i].id != next[j].id {
      assert next[i] == s[i];
      if j < |s| {
        assert next[j] == s[j];
      }
    }
  }

  lemma SuffixUnique(s: seq<Record>, d: nat)
    requires UniqueIds(s) && d <= |s|
    ensures UniqueIds(s[d..])
  {
    var r := s[d..];
    forall i, j | 0 <= i < j < |r| ensures r[i].id != r[j].id {
      assert r[i] == s[d + i] && r[j] == s[d + j];
    }
  }

  // ---------------------------------------------------------------------------
  // Removal

  /** The list without the records that carry `id`; the others keep their order. */
  function Remove(s: seq<Record>, id: string): (r: seq<Record>)
    ensures |r| <= |s|
    ensures Fresh(r, id)
    ensures Fresh(s, id) ==> r == s
  {
    if s == [] then []
    else
      var rest := Remove(s[1..], id);
      var r := (if s[0].id == id then [] else [s[0]]) + rest;
      assert forall k | 1 <= k < |s| :: s[k] == s[1..][k - 1];
      r
  }

  /** A record survives removal exactly when it was there and carries another id. */
  lemma {:induction false} RemoveMembers(s: seq<Record>, id: string, x: Record)
    ensures x in Remove(s, id) <==> x in s && x.id != id
  {
    if s != [] {
      RemoveMembers(s[1..], id, x);
      assert s == [s[0]] + s[1..];
    }
  }

  /** Removal distributes over concatenation, so relative order is kept. */
  lemma {:induction false} RemoveAppend(s: seq<Record>, t: seq<Record>, id: string)
    ensures Remove(s + t, id) == Remove(s, id) + Remove(t, id)
  {
    if s != [] {
      var head: seq<Record> := if s[0].id == id then [] else [s[0]];
      var rs, rt := Remove(s[1..], id), Remove(t, id);
      assert Remove(s + t, id) == head + Remove(s[1..] + t, id) by {
        ConsAppend(s, t);
        RemoveCons(s[0], s[1..] + t, id);
      }
      assert Remove(s[1..] + t, id) == rs + rt by {
        RemoveAppend(s[1..], t, id);
      }
      assert Remove(s, id) == head + rs;
      assert head + (rs + rt) == (head + rs) + rt;
    } else {
      assert s + t == t;
    }
  }

  lemma ConsAppend(s: seq<Record>, t: seq<Record>)
    requires s != []
    ensures s + t == [s[0]] + (s[1..] + t)
  {
  }

  /** Removal looks at the first record, then goes on with the rest. */
  lemma RemoveCons(x: Record, t: seq<Record>, id: string)
    ensures Remove([x] + t, id) == (if x.id == id then [] else [x]) + Remove(t, id)
  {
    var s := [x] + t;
    assert s[0] == x && s[1..] == t;
  }

  /** Removal keeps distinct ids distinct. */
  lemma {:induction false} RemovePreservesUnique(s: seq<Record>, id: string)
    requires UniqueIds(s)
    ensures UniqueIds(Remove(s, id))
  {
    if s != [] {
      var tail := s[1..];
      UniqueTail(s);
      RemovePreservesUnique(tail, id);
      if s[0].id != id {
        RemoveKeepsFresh(tail, id, s[0].id);
        ConsUnique(s[0], Remove(tail, id));
      }
    }
  }

  /** The records after the first keep distinct ids, none of them the first one's. */
  lemma UniqueTail(s: seq<Record>)
    requires UniqueIds(s) && |s| > 0
    ensures UniqueIds(s[1..]) && Fresh(s[1..], s[0].id)
  {
    var tail := s[1..];
    forall a, b | 0 <= a < b < |tail| ensures tail[a].id != tail[b].id {
      assert tail[a] == s[a + 1] && tail[b] == s[b + 1];
    }
    forall k | 0 <= k < |tail| ensures tail[k].id != s[0].id {
      assert tail[k] == s[k + 1];
    }
  }

  /** A record in front of a list with distinct ids none of which is its own keeps the ids distinct. */
  lemma ConsUnique(x: Record, t: seq<Record>)
    requires UniqueIds(t) && Fresh(t, x.id)
    ensures UniqueIds([x] + t)
  {
    var s := [x] + t;
    forall a, b | 0 <= a < b < |s| ensures s[a].id != s[b].id {
      assert s[b] == t[b - 1];
      if a > 0 {
        assert s[a] == t[a - 1];
      }
    }
  }

  /** Removal never brings in an id that was not there. */
  lemma {:induction false} RemoveKeepsFresh(s: seq<Record>, id: string, other: string)
    requires Fresh(s, other)
    ensures Fresh(Remove(s, id), other)
  {
    if s != [] {
      var tail := s[1..];
      assert Fresh(tail, other) by {
        forall k | 0 <= k < |tail| ensures tail[k].id != other {
          assert tail[k] == s[k + 1];
        }
      }
      RemoveKeepsFresh(tail, id, other);
      var head: seq<Record> := if s[0].id == id then [] else [s[0]];
      var r := head + Remove(tail, id);
      forall k | 0 <= k < |r| ensures r[k].id != other {
        if k >= |head| {
          assert r[k] == Remove(tail, id)[k - |head|];
        }
      }
    }
  }

  /** Removing twice is removing once. */
  lemma RemoveIdempotent(s: seq<Record>, id: string)
    ensures Remove(Remove(s, id), id) == Remove(s, id)
  {
  }

  /** With distinct ids, removing the id of the record at `i` takes out exactly that record. */
  lemma RemoveUnique(s: seq<Record>, i: nat)
    requires UniqueIds(s) && i < |s|
    ensures Remove(s, s[i].id) == s[..i] + s[i + 1..]
  {
    var id := s[i].id;
    var before, middle, after := s[..i], [s[i]], s[i + 1..];
    UniqueAround(s, i);
    assert Remove(middle, id) == [] by {
      assert middle[1..] == [];
    }
    RemoveAppend(middle, after, id);
    assert Remove(middle + after, id) == after;
    RemoveAppend(before, middle + after, id);
    SplitAt(s, i);
  }

  lemma SplitAt(s: seq<Record>, i: nat)
    requires i < |s|
    ensures s == s[..i] + ([s[i]] + s[i + 1..])
  {
  }

  /** With distinct ids, no record before or after the one at `i` carries its id. */
  lemma UniqueAround(s: seq<Record>, i: nat)
    requires UniqueIds(s) && i < |s|
    ensures Fresh(s[..i], s[i].id) && Fresh(s[i + 1..], s[i].id)
  {
    var after := s[i + 1..];
    forall k | 0 <= k < |after| ensures after[k].id != s[i].id {
      assert after[k] == s[i + 1 + k];
    }
  }

  // ---------------------------------------------------------------------------
  // Update

  /** `{...n, ...p}`: the record with the patch's properties laid over it. */
  function Merge(n: Record, p: Patch): Record {
    Record(
      if p.id.Some? then p.id.value else n.id,
      if p.kind.Some? then p.kind.value else n.kind,
      if p.message.Some? then p.message.value else n.message,
      if p.duration.Some? then p.duration.value else n.duration,
      if p.showClose.Some? then p.showClose.value else n.showClose,
      if p.customStyles.Some? then p.customStyles.value else n.customStyles,
      if p.position.Some? then p.position.value else n.position)
  }

  /**
   * `after` is `before` with `p` laid over it: a property the patch has takes
   * the patch's value, every other property keeps the record's.
   */
  ghost predicate Overlays(after: Record, before: Record, p: Patch) {
    && after.id == (if p.id.Some? then p.id.value else before.id)
    && after.kind == (if p.kind.Some? then p.kind.value else before.kind)
    && after.message == (if p.message.Some? then p.message.value else before.message)
    && after.duration == (if p.duration.Some? then p.duration.value else before.duration)
    && after.showClose == (if p.showClose.Some? then p.showClose.value else before.showClose)
    && after.customStyles == (if p.customStyles.Some? then p.customStyles.value else before.customStyles)
    && after.position == (if p.position.Some? then p.position.value else before.position)
  }

  /**
   * The list with `p` merged into every record that carries `id`; the length,
   * the order and every other record stay as they were.
   */
  function Update(s: seq<Record>, id: string, p: Patch): (r: seq<Record>)
    ensures |r| == |s|
    ensures forall i | 0 <= i < |s| && s[i].id != id :: r[i] == s[i]
    ensures forall i | 0 <= i < |s| && s[i].id == id :: Overlays(r[i], s[i], p)
    ensures Fresh(s, id) ==> r == s
  {
    if s == [] then []
    else
      var rest := Update(s[1..], id, p);
      var r := [if s[0].id == id then Merge(s[0], p) else s[0]] + rest;
      assert forall i | 1 <= i < |s| :: r[i] == rest[i - 1] && s[i] == s[1..][i - 1];
      r
  }

  /** A record that the patch overlays is the merged record. */
  lemma OverlaysIsMerge(after: Record, before: Record, p: Patch)
    requires Overlays(after, before, p)
    ensures after == Merge(before, p)
  {
  }

  /** Merging the same patch twice is merging it once. */
  lemma MergeIdempotent(n: Record, p: Patch)
    ensures Merge(Merge(n, p), p) == Merge(n, p)
  {
  }

  /** Updating twice with the same patch is updating once, even when the patch renames the record. */
  lemma {:induction false} UpdateIdempotent(s: seq<Record>, id: string, p: Patch)
    ensures Update(Update(s, id, p), id, p) == Update(s, id, p)
  {
    if s != [] {
      UpdateIdempotent(s[1..], id, p);
      if s[0].id == id {
        MergeIdempotent(s[0], p);
      }
    }
  }

  /** A patch that does not rename keeps every id in place, hence keeps distinct ids distinct. */
  lemma UpdatePreservesUnique(s: seq<Record>, id: string, p: Patch)
    requires UniqueIds(s) && p.id.None?
    ensures UniqueIds(Update(s, id, p))
  {
    var r := Update(s, id, p);
    assert forall i | 0 <= i < |s| :: r[i].id == s[i].id;
  }

  /** Updating a record and then removing it is removing it. */
  lemma {:induction false} RemoveAfterUpdate(s: seq<Record>, id: string, p: Patch)
    requires p.id.None?
    ensures Remove(Update(s, id, p), id) == Remove(s, id)
  {
    if s != [] {
      var u := Update(s, id, p);
      assert u[1..] == Update(s[1..], id, p);
      RemoveAfterUpdate(s[1..], id, p);
    }
  }

  // ---------------------------------------------------------------------------
  // Shorthand creators

  /** The options the shorthand for `k` hands to creation: the type and message are forced, the rest pass through. */
  function ShorthandOptions(k: Kind, msg: Option<string>, o: Options): (r: Options)
    ensures r.kind == Some(k.Name()) && r.message == msg
    ensures r.(kind := o.kind, message := o.message) == o
  {
    o.(kind := Some(k.Name()), message := msg)
  }

  /** A shorthand record has the named type whatever the options say, and otherwise what creation gives. */
  lemma ShorthandRecord(id: string, k: Kind, msg: Option<string>, o: Options, cfg: Config)
    ensures var r := MakeRecord(id, ShorthandOptions(k, msg, o), cfg);
      && r.kind == k.Name()
      && r.message == OrElse(msg, "Notification")
      && r.(kind := MakeRecord(id, o, cfg).kind, message := MakeRecord(id, o, cfg).message) == MakeRecord(id, o, cfg)
  {
  }

  // ---------------------------------------------------------------------------
  // The promise-bound helper

  /** The messages shown while the operation is pending, after it resolves and after it rejects. */
  datatype Messages = Messages(loading: Option<string>, success: Option<string>, error: Option<string>)

  /** A rejection value, as far as the helper reads it: its `message` property. */
  datatype JsError = JsError(message: Option<string>)

  /** How the awaited operation settled. */
  datatype Settled<V> = Resolved(value: V) | Rejected(error: JsError)

  /** The options of the loading record: the caller's options with the type, message, duration and close control overridden. */
  function LoadingOptions(m: Messages, o: Options): Options {
    o.(kind := Some("info"), message := Some(OrElse(m.loading, "Loading...")),
       duration := Defined(None), showClose := Defined(false))
  }

  /** The loading record is a persistent, non-closable info record that keeps the caller's position and styles. */
  lemma LoadingRecord(id: string, m: Messages, o: Options, cfg: Config)
    ensures MakeRecord(id, LoadingOptions(m, o), cfg) ==
      Record(id, "info", OrElse(m.loading, "Loading..."), None, false,
             MakeRecord(id, o, cfg).customStyles, MakeRecord(id, o, cfg).position)
  {
  }

  /** The patch applied once the operation has settled. */
  function SettlePatch<V>(m: Messages, outcome: Settled<V>): (p: Patch)
    ensures p.id.None? && p.customStyles.None? && p.position.None?
    ensures p.showClose == Some(true)
    ensures outcome.Resolved? ==>
      p.kind == Some("success") && p.message == Some(OrElse(m.success, "Success")) && p.duration == Some(Some(2500))
    ensures outcome.Rejected? ==>
      && p.kind == Some("error")
      && p.message == Some(OrElse(m.error, OrElse(outcome.error.message, "Failed")))
      && p.duration == Some(Some(5000))
  {
    match outcome
    case Resolved(_) =>
      Patch(None, Some("success"), Some(OrElse(m.success, "Success")), Some(Some(2500)), Some(true), None, None)
    case Rejected(e) =>
      Patch(None, Some("error"), Some(OrElse(m.error, OrElse(e.message, "Failed"))), Some(Some(5000)), Some(true), None, None)
  }

  /** After creating a record with a fresh id, that id is on the last record and on no other. */
  lemma AddToFreshId(prev: seq<Record>, n: Record, max: int)
    requires Fresh(prev, n.id) && max >= 1
    ensures var r := AddTo(prev, n, max); r[|r| - 1] == n && Fresh(r[..|r| - 1], n.id)
  {
    var r := AddTo(prev, n, max);
    var d := |prev| + 1 - |r|;
    var init := r[..|r| - 1];
    forall i | 0 <= i < |init| ensures init[i].id != n.id {
      assert init[i] == r[i] == (prev + [n])[d + i] == prev[d + i];
    }
  }

  /** Updating the id that only the last record carries changes only that record. */
  lemma UpdateLast(s: seq<Record>, id: string, p: Patch)
    requires |s| > 0 && s[|s| - 1].id == id && Fresh(s[..|s| - 1], id)
    ensures Update(s, id, p) == s[..|s| - 1] + [Merge(s[|s| - 1], p)]
  {
    var u := Update(s, id, p);
    var last := |s| - 1;
    assert u[..last] == s[..last] by {
      forall i | 0 <= i < last ensures u[i] == s[i] {
        assert s[i] == s[..last][i];
      }
    }
    assert u[last] == Merge(s[last], p) by {
      OverlaysIsMerge(u[last], s[last], p);
    }
    assert u == u[..last] + [u[last]];
  }

  /**
   * With nothing in between, the helper's create-then-update leaves the list as
   * creation left it, except that the new last record now shows the outcome.
   */
  lemma PromiseLifecycle<V>(prev: seq<Record>, id: string, m: Messages, o: Options, cfg: Config, outcome: Settled<V>)
    requires Fresh(prev, id) && cfg.maxNotifications >= 1
    ensures var loading := AddTo(prev, MakeRecord(id, LoadingOptions(m, o), cfg), cfg.maxNotifications);
      var settled := Update(loading, id, SettlePatch(m, outcome));
      && |settled| == |loading|
      && settled[..|settled| - 1] == loading[..|loading| - 1]
      && settled[|settled| - 1] == Merge(loading[|loading| - 1], SettlePatch(m, outcome))
      && settled[|settled| - 1].id == id
      && settled[|settled| - 1].kind == (if outcome.Resolved? then "success" else "error")
      && settled[|settled| - 1].showClose
      && settled[|settled| - 1].position == MakeRecord(id, o, cfg).position
  {
    var n := MakeRecord(id, LoadingOptions(m, o), cfg);
    var loading := AddTo(prev, n, cfg.maxNotifications);
    AddToFreshId(prev, n, cfg.maxNotifications);
    UpdateLast(loading, id, SettlePatch(m, outcome));
  }

  // ---------------------------------------------------------------------------
  // The provider's state

  class Provider {
    const config: Config
    /** The active notifications, oldest first. */
    var notifications: seq<Record>

    ghost predicate Valid()
      reads this
    {
      |notifications| <= Max(config.maxNotifications, 0)
    }

    constructor (config: Config)
      ensures Valid()
      ensures this.config == config && notifications == []
    {
      this.config := config;
      notifications := [];
    }

    /**
     * Creation. `freshId` is the newly generated id, which no active record
     * carries; it is also what the operation returns.
     */
    method AddNotification(o: Options, freshId: string) returns (id: string)
      requires Valid() && Fresh(notifications, freshId)
      modifies this
      ensures Valid()
      ensures id == freshId
      ensures notifications == AddTo(old(notifications), MakeRecord(freshId, o, config), config.maxNotifications)
      ensures UniqueIds(old(notifications)) ==> UniqueIds(notifications)
    {
      id := freshId;
      var n := MakeRecord(id, o, config);
      if UniqueIds(notifications) {
        AddPreservesUnique(notifications, n, config.maxNotifications);
      }
      notifications := AddTo(notifications, n, config.maxNotifications);
    }

    method RemoveNotification(id: string)
      requires Valid()
      modifies this
      ensures Valid()
      ensures notifications == Remove(old(notifications), id)
      ensures UniqueIds(old(notifications)) ==> UniqueIds(notifications)
    {
      if UniqueIds(notifications) {
        RemovePreservesUnique(notifications, id);
      }
      notifications := Remove(notifications, id);
    }

    method UpdateNotification(id: string, p: Patch)
      requires Valid()
      modifies this
      ensures Valid()
      ensures notifications == Update(old(notifications), id, p)
      ensures UniqueIds(old(notifications)) && p.id.None? ==> UniqueIds(notifications)
    {
      if UniqueIds(notifications) && p.id.None? {
        UpdatePreservesUnique(notifications, id, p);
      }
      notifications := Update(notifications, id, p);
    }

    method ClearAll()
      requires Valid()
      modifies this
      ensures Valid()
      ensures notifications == []
    {
      notifications := [];
    }

    /** The shorthand creators `success`, `error`, `warning`, `violation` and `info`. */
    method Shorthand(k: Kind, msg: Option<string>, o: Options, freshId: string) returns (id: string)
      requires Valid() && Fresh(notifications, freshId)
      modifies this
      ensures Valid()
      ensures id == freshId
      ensures notifications == AddTo(old(notifications), MakeRecord(freshId, ShorthandOptions(k, msg, o), config), config.maxNotifications)
    {
      id := AddNotification(ShorthandOptions(k, msg, o), freshId);
    }

    /** The first half of the promise helper: the loading record is created before the operation is awaited. */
    method PromiseBegin(m: Messages, o: Options, freshId: string) returns (id: string)
      requires Valid() && Fresh(notifications, freshId)
      modifies this
      ensures Valid()
      ensures id == freshId
      ensures notifications == AddTo(old(notifications), MakeRecord(freshId, LoadingOptions(m, o), config), config.maxNotifications)
    {
      id := AddNotification(LoadingOptions(m, o), freshId);
    }

    /**
     * The second half: once the operation settles, the record with the
     * captured id shows the outcome (a no-op if that record is gone by then),
     * and the outcome itself is passed on unchanged.
     */
    method PromiseSettle<V>(id: string, m: Messages, outcome: Settled<V>) returns (r: Settled<V>)
      requires Valid()
      modifies this
      ensures Valid()
      ensures r == outcome
      ensures notifications == Update(old(notifications), id, SettlePatch(m, outcome))
      ensures Fresh(old(notifications), id) ==> notifications == old(notifications)
      ensures UniqueIds(old(notifications)) ==> UniqueIds(notifications)
    {
      UpdateNotification(id, SettlePatch(m, outcome));
      r := outcome;
    }
  }
}
