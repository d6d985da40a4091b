/**
 * The container that places the active notifications on screen: it groups
 * the list into one stack per position, each stack in list order, and looks
 * up the anchor style of every stack.
 *
 * `Bucket` and `KeyOrder` specify the grouping on values; the method `Group`
 * is the source's loop, proved to build exactly those buckets in exactly that
 * key order. The lemmas state what the grouping promises: every record lands
 * in one stack, no stack is empty, stacks keep the list's order, and stacks
 * are enumerated by first appearance.
 */
module NotificationContainer {
  import opened Records

  /** The stack a record goes to: its own position, or the default when that is empty. */
  function PositionKey(n: Record, defaultPosition: string): string {
    if n.position != "" then n.position else defaultPosition
  }

  /** The records of `s` that go to the stack `key`, in list order. */
  function Bucket(s: seq<Record>, dp: string, key: string): seq<Record> {
    if s == [] then []
    else Bucket(s[..|s| - 1], dp, key) + (if PositionKey(s[|s| - 1], dp) == key then [s[|s| - 1]] else [])
  }

  /** The stack keys of `s` in the order a plain object created them: order of first appearance. */
  function KeyOrder(s: seq<Record>, dp: string): seq<string> {
    if s == [] then []
    else
      var keys := KeyOrder(s[..|s| - 1], dp);
      var k := PositionKey(s[|s| - 1], dp);
      if k in keys then keys else keys + [k]
  }

  /** The number of records in the stacks named by `keys`. */
  function Total(keys: seq<string>, s: seq<Record>, dp: string): nat {
    if keys == [] then 0 else |Bucket(s, dp, keys[0])| + Total(keys[1..], s, dp)
  }

  /** The position of the record at `j` inside its own stack. */
  function Rank(s: seq<Record>, dp: string, j: nat): nat
    requires j < |s|
  {
    |Bucket(s[..j], dp, PositionKey(s[j], dp))|
  }

  /** `j` is the first index whose record goes to `key`. */
  predicate FirstAt(s: seq<Record>, dp: string, key: string, j: nat) {
    j < |s| && PositionKey(s[j], dp) == key && forall i | 0 <= i < j :: PositionKey(s[i], dp) != key
  }

  /** `order` and `groups` are the key order and the stacks of `s`. */
  ghost predicate Grouped(s: seq<Record>, dp: string, order: seq<string>, groups: map<string, seq<Record>>) {
    && order == KeyOrder(s, dp)
    && (forall k :: k in groups <==> k in order)
    && (forall k | k in groups :: groups[k] == Bucket(s, dp, k))
  }

  /** One turn of the grouping loop keeps `Grouped` for the list taken in so far. */
  lemma GroupedStep(s: seq<Record>, dp: string, order: seq<string>, groups: map<string, seq<Record>>, x: Record)
    requires Grouped(s, dp, order, groups)
    ensures var key := PositionKey(x, dp);
      Grouped(s + [x], dp,
        if key in groups then order else order + [key],
        groups[key := (if key in groups then groups[key] else []) + [x]])
  {
    var sx := s + [x];
    assert sx[..|sx| - 1] == s && sx[|sx| - 1] == x;
    BucketNonEmpty(s, dp, PositionKey(x, dp));
  }

  /**
   * The grouping loop: for each record in turn, create its stack if there is
   * none yet, then push the record onto it. `groups` is the object built and
   * `order` the order in which its keys were created.
   */
  method Group(ns: seq<Record>, defaultPosition: string) returns (order: seq<string>, groups: map<string, seq<Record>>)
    ensures order == KeyOrder(ns, defaultPosition)
    ensures forall k :: k in groups <==> k in order
    ensures forall k | k in groups :: groups[k] == Bucket(ns, defaultPosition, k)
  {
    order, groups := [], map[];
    for i := 0 to |ns|
      invariant Grouped(ns[..i], defaultPosition, order, groups)
    {
      var n := ns[i];
      var key := PositionKey(n, defaultPosition);
      GroupedStep(ns[..i], defaultPosition, order, groups, n);
      assert ns[..i + 1] == ns[..i] + [n];
      if key !in groups {
        groups := groups[key := []];
        order := order + [key];
      }
      groups := groups[key := groups[key] + [n]];
    }
    assert ns[..|ns|] == ns;
  }

  /** A stack exists exactly when it has a record: no stack is created empty. */
  lemma {:induction false} BucketNonEmpty(s: seq<Record>, dp: string, key: string)
    ensures |Bucket(s, dp, key)| > 0 <==> key in KeyOrder(s, dp)
  {
    if s != [] {
      BucketNonEmpty(s[..|s| - 1], dp, key);
    }
  }

  /** A key is listed exactly when some record goes to it. */
  lemma {:induction false} KeyOrderMembers(s: seq<Record>, dp: string, key: string)
    ensures key in KeyOrder(s, dp) <==> exists j | 0 <= j < |s| :: PositionKey(s[j], dp) == key
  {
    if s != [] {
      var init := s[..|s| - 1];
      KeyOrderMembers(init, dp, key);
      if exists j | 0 <= j < |s| :: PositionKey(s[j], dp) == key {
        var j :| 0 <= j < |s| && PositionKey(s[j], dp) == key;
        if j < |s| - 1 {
          assert init[j] == s[j];
        }
      }
      if exists j | 0 <= j < |init| :: PositionKey(init[j], dp) == key {
        var j :| 0 <= j < |init| && PositionKey(init[j], dp) == key;
        assert s[j] == init[j];
      }
    }
  }

  /** No key is listed twice. */
  lemma {:induction false} KeyOrderDistinct(s: seq<Record>, dp: string)
    ensures forall a, b | 0 <= a < b < |KeyOrder(s, dp)| :: KeyOrder(s, dp)[a] != KeyOrder(s, dp)[b]
  {
    if s != [] {
      KeyOrderDistinct(s[..|s| - 1], dp);
    }
  }

  /** A stack holds exactly the records that go to it. */
  lemma {:induction false} BucketMembers(s: seq<Record>, dp: string, key: string, x: Record)
    ensures x in Bucket(s, dp, key) <==> x in s && PositionKey(x, dp) == key
  {
    if s != [] {
      var init := s[..|s| - 1];
      BucketMembers(init, dp, key, x);
      assert s == init + [s[|s| - 1]];
    }
  }

  lemma {:induction false} TotalAppendKey(keys: seq<string>, key: string, s: seq<Record>, dp: string)
    ensures Total(keys + [key], s, dp) == Total(keys, s, dp) + |Bucket(s, dp, key)|
  {
    if keys != [] {
      assert (keys + [key])[1..] == keys[1..] + [key];
      TotalAppendKey(keys[1..], key, s, dp);
    }
  }

  lemma {:induction false} TotalAppendRecord(keys: seq<string>, s: seq<Record>, x: Record, dp: string)
    requires forall a, b | 0 <= a < b < |keys| :: keys[a] != keys[b]
    ensures Total(keys, s + [x], dp) == Total(keys, s, dp) + (if PositionKey(x, dp) in keys then 1 else 0)
  {
    var sx := s + [x];
    assert sx[..|sx| - 1] == s && sx[|sx| - 1] == x;
    if keys != [] {
      TotalAppendRecord(keys[1..], s, x, dp);
      assert PositionKey(x, dp) == keys[0] ==> PositionKey(x, dp) !in keys[1..];
      assert PositionKey(x, dp) in keys <==> PositionKey(x, dp) == keys[0] || PositionKey(x, dp) in keys[1..];
    }
  }

  /** The stacks together hold every record once: their sizes add up to the list's length. */
  lemma {:induction false} BucketSizesSum(s: seq<Record>, dp: string)
    ensures Total(KeyOrder(s, dp), s, dp) == |s|
  {
    if s != [] {
      var init, x := s[..|s| - 1], s[|s| - 1];
      var keys := KeyOrder(init, dp);
      var key := PositionKey(x, dp);
      assert s == init + [x];
      BucketSizesSum(init, dp);
      KeyOrderDistinct(init, dp);
      TotalAppendRecord(keys, init, x, dp);
      if key !in keys {
        TotalAppendKey(keys, key, s, dp);
        BucketNonEmpty(init, dp, key);
      }
    }
  }

  /** The stack of a prefix of the list is a prefix of the stack of the list. */
  lemma {:induction false} BucketPrefix(s: seq<Record>, dp: string, key: string, i: nat)
    requires i <= |s|
    ensures Bucket(s[..i], dp, key) <= Bucket(s, dp, key)
    decreases |s|
  {
    if i < |s| {
      var init := s[..|s| - 1];
      assert s[..i] == init[..i];
      BucketPrefix(init, dp, key, i);
    } else {
      assert s[..i] == s;
    }
  }

  /** The record at `j` sits at position `Rank(s, dp, j)` of its stack. */
  lemma BucketRank(s: seq<Record>, dp: string, j: nat)
    requires j < |s|
    ensures var b := Bucket(s, dp, PositionKey(s[j], dp)); Rank(s, dp, j) < |b| && b[Rank(s, dp, j)] == s[j]
  {
    var key := PositionKey(s[j], dp);
    var prefix := s[..j + 1];
    assert prefix[..j] == s[..j] && prefix[j] == s[j];
    assert Bucket(prefix, dp, key) == Bucket(s[..j], dp, key) + [s[j]];
    BucketPrefix(s, dp, key, j + 1);
  }

  /** Within a stack the records keep their relative order from the list. */
  lemma BucketKeepsOrder(s: seq<Record>, dp: string, i: nat, j: nat)
    requires i < j < |s| && PositionKey(s[i], dp) == PositionKey(s[j], dp)
    ensures var b := Bucket(s, dp, PositionKey(s[j], dp));
      && Rank(s, dp, i) < Rank(s, dp, j) < |b|
      && b[Rank(s, dp, i)] == s[i] && b[Rank(s, dp, j)] == s[j]
  {
    var key := PositionKey(s[j], dp);
    BucketRank(s, dp, i);
    BucketRank(s, dp, j);
    var upto := s[..j];
    assert upto[..i + 1] == s[..i + 1] && upto[..i + 1][..i] == s[..i] && upto[..i + 1][i] == s[i];
    assert Bucket(s[..i + 1], dp, key) == Bucket(s[..i], dp, key) + [s[i]];
    BucketPrefix(upto, dp, key, i + 1);
  }

  /** The keys of a prefix of the list are a prefix of the keys of the list. */
  lemma {:induction false} KeyOrderPrefix(s: seq<Record>, dp: string, i: nat)
    requires i <= |s|
    ensures KeyOrder(s[..i], dp) <= KeyOrder(s, dp)
    decreases |s|
  {
    if i < |s| {
      var init := s[..|s| - 1];
      assert s[..i] == init[..i];
      KeyOrderPrefix(init, dp, i);
    } else {
      assert s[..i] == s;
    }
  }

  /** The record that first goes to `key` adds `key` to the order at that moment. */
  lemma KeyOrderAtFirst(s: seq<Record>, dp: string, key: string, j: nat)
    requires FirstAt(s, dp, key, j)
    ensures var keys := KeyOrder(s, dp); var n := |KeyOrder(s[..j], dp)|; n < |keys| && keys[n] == key
  {
    var prefix := s[..j + 1];
    assert prefix[..j] == s[..j] && prefix[j] == s[j];
    KeyOrderMembers(s[..j], dp, key);
    assert key !in KeyOrder(s[..j], dp);
    assert KeyOrder(prefix, dp) == KeyOrder(s[..j], dp) + [key];
    KeyOrderPrefix(s, dp, j + 1);
  }

  /** Stacks are enumerated in the order in which their first records appear in the list. */
  lemma KeyOrderFirstAppearance(s: seq<Record>, dp: string, a: nat, b: nat, ja: nat, jb: nat)
    requires a < b < |KeyOrder(s, dp)|
    requires FirstAt(s, dp, KeyOrder(s, dp)[a], ja) && FirstAt(s, dp, KeyOrder(s, dp)[b], jb)
    ensures ja < jb
  {
    var keys := KeyOrder(s, dp);
    KeyOrderDistinct(s, dp);
    KeyOrderAtFirst(s, dp, keys[a], ja);
    KeyOrderAtFirst(s, dp, keys[b], jb);
    KeyOrderGrows(s, dp, jb, ja);
  }

  /** Taking in more of the list never shortens the key order. */
  lemma KeyOrderGrows(s: seq<Record>, dp: string, i: nat, j: nat)
    ensures i <= j <= |s| ==> |KeyOrder(s[..i], dp)| <= |KeyOrder(s[..j], dp)|
  {
    if i <= j <= |s| {
      KeyOrderPrefix(s[..j], dp, i);
      assert s[..j][..i] == s[..i];
    }
  }

  /**
   * The grouping loop exactly as the source writes it, over a plain object:
   * `map[key]` for a key the object inherits (such as "constructor" or
   * "toString") is a function, not undefined, so no stack is created and the
   * following `push` throws a TypeError. `crashed` reports that throw.
   */
  method GroupAsWritten(ns: seq<Record>, defaultPosition: string)
    returns (crashed: bool, order: seq<string>, groups: map<string, seq<Record>>)
    ensures crashed <==> exists j | 0 <= j < |ns| :: ObjectPrototypeKey(PositionKey(ns[j], defaultPosition))
    ensures !crashed ==> order == KeyOrder(ns, defaultPosition)
    ensures !crashed ==> forall k :: k in groups <==> k in order
    ensures !crashed ==> forall k | k in groups :: groups[k] == Bucket(ns, defaultPosition, k)
    // the crash masks the lookup of line 37: every stack that survives the loop has an anchor style
    ensures !crashed ==> forall k | k in order :: PositionStyleAsWritten(k) == Some(PositionStyle(k))
  {
    order, groups, crashed := [], map[], false;
    var i := 0;
    while i < |ns|
      invariant 0 <= i <= |ns|
      invariant forall j | 0 <= j < i :: !ObjectPrototypeKey(PositionKey(ns[j], defaultPosition))
      invariant forall k | k in groups :: !ObjectPrototypeKey(k)
      invariant Grouped(ns[..i], defaultPosition, order, groups)
    {
      var n := ns[i];
      var key := PositionKey(n, defaultPosition);
      if key !in groups && ObjectPrototypeKey(key) {
        crashed := true;
        return;
      }
      // `if (!map[key]) map[key] = []; map[key].push(n)`
      var stack := if key in groups then groups[key] else [];
      var order' := if key in groups then order else order + [key];
      var groups' := groups[key := stack + [n]];
      assert Grouped(ns[..i + 1], defaultPosition, order', groups') by {
        GroupedStep(ns[..i], defaultPosition, order, groups, n);
        assert ns[..i + 1] == ns[..i] + [n];
      }
      assert forall k | k in groups' :: !ObjectPrototypeKey(k) by {
        assert forall k | k in groups' :: k in groups || k == key;
      }
      order, groups, i := order', groups', i + 1;
    }
    assert ns[..|ns|] == ns;
    StyledStacks(order, groups);
  }

  /** Stacks whose keys are not inherited names all get their anchor style from the literal lookup. */
  lemma StyledStacks(order: seq<string>, groups: map<string, seq<Record>>)
    requires forall k :: k in groups <==> k in order
    requires forall k | k in groups :: !ObjectPrototypeKey(k)
    ensures forall k | k in order :: PositionStyleAsWritten(k) == Some(PositionStyle(k))
  {
  }

  /** A single notification placed at "constructor" makes the loop as written throw. */
  method ConstructorPositionCrashes() returns (crashed: bool)
    ensures crashed
  {
    var n := Record("1", "info", "Hi", None, true, map[], "constructor");
    var order, groups;
    crashed, order, groups := GroupAsWritten([n], "top-right");
  }

  // ---------------------------------------------------------------------------
  // Anchor styles

  /** The anchor style of a stack: the six named positions have their own, every other key falls back to top-right. */
  function PositionStyle(key: string): (a: Anchor)
    ensures a.Name() == key || a == TopRight
  {
    if key == "top-left" then TopLeft
    else if key == "bottom-right" then BottomRight
    else if key == "bottom-left" then BottomLeft
    else if key == "top-center" then TopCenter
    else if key == "bottom-center" then BottomCenter
    else TopRight
  }

  /** Each named position gets its own style. */
  lemma PositionStyleOfName(a: Anchor)
    ensures PositionStyle(a.Name()) == a
  {
  }

  /**
   * `POS_STYLES[key] || POS_STYLES["top-right"]` exactly as written, over an
   * object literal: None is a key the table inherits, whose value is a
   * function, truthy, so the fallback is skipped and no anchor style applies.
   */
  function PositionStyleAsWritten(key: string): (r: Option<Anchor>)
    ensures r.None? <==> ObjectPrototypeKey(key)
    ensures r.Some? ==> r.value == PositionStyle(key)
  {
    if ObjectPrototypeKey(key) then None else Some(PositionStyle(key))
  }

  /**
   * Once the grouping loop is corrected, a notification at "toString" gets a
   * stack of its own, and that stack then gets no anchor style as written.
   */
  method CorrectedGroupExposesUnstyled() returns (order: seq<string>, style: Option<Anchor>)
    ensures order == ["toString"]
    ensures style == None
  {
    var n := Record("1", "info", "Hi", None, true, map[], "toString");
    var groups;
    order, groups := Group([n], "top-right");
    style := PositionStyleAsWritten(order[0]);
  }

  /** The stack at "toString" gets no anchor style as written, where the evident intent is top-right. */
  lemma InheritedPositionUnstyled()
    ensures PositionStyleAsWritten("toString") == None
    ensures PositionStyle("toString") == TopRight
  {
  }

  /** A key that names no anchor gets the top-right style. */
  lemma UnknownPositionIsTopRight(key: string)
    requires forall a: Anchor :: a.Name() != key
    ensures PositionStyle(key) == TopRight
  {
  }
}
