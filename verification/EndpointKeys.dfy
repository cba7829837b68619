/**
 * Storage keys of the endpoints the shell knows (desktop/endpointRegistry.js): one key for an endpoint
 * and a logical key, its inverse, and the clearing of one endpoint's keys in a store whose indices
 * shift as keys are removed.
 */
module EndpointKeys {
  import opened Options
  import opened Decimal
  import opened Texts

  const PREFIX := "ep:"

  datatype Parsed = Parsed(id: string, logicalKey: string)

  function EndpointKey(id: string, logicalKey: string): string {
    PREFIX + Write(|id|) + ":" + id + ":" + logicalKey
  }

  function ParseEndpointKey(key: string): Option<Parsed> {
    if !(PREFIX <= key) then None
    else
      var rest := key[|PREFIX|..];
      var colon := IndexOf(rest, ':');
      if colon == 0 || colon == |rest| || !AllDigits(rest[..colon]) then None
      else
        var n := Read(rest[..colon]);
        var body := rest[colon + 1..];
        if |body| < n + 1 || body[n] != ':' then None
        else Some(Parsed(body[..n], body[n + 1..]))
  }

  // ── The key and its inverse ──

  /** The one shape the inverse reads: the prefix, a number in digits, a colon, that many characters, a
      colon, and the rest. */
  lemma ParseOf(length: string, id: string, logicalKey: string)
    requires length != [] && AllDigits(length) && Read(length) == |id|
    ensures ParseEndpointKey(PREFIX + length + ":" + id + ":" + logicalKey) == Some(Parsed(id, logicalKey))
  {
    var key := PREFIX + length + ":" + id + ":" + logicalKey;
    var rest := key[|PREFIX|..];
    var body := id + ":" + logicalKey;
    assert rest == length + ":" + body;
    IndexAfter(length, ':', body);
    assert rest[..|length|] == length && rest[|length| + 1..] == body;
    assert body[|id|] == ':' && body[..|id|] == id && body[|id| + 1..] == logicalKey;
  }

  /** Every endpoint and every logical key come back, colons and all. */
  lemma ParseInvertsKey(id: string, logicalKey: string)
    ensures ParseEndpointKey(EndpointKey(id, logicalKey)) == Some(Parsed(id, logicalKey))
  {
    ReadWrite(|id|);
    ParseOf(Write(|id|), id, logicalKey);
  }

  /** No two endpoints share a slot. */
  lemma KeysNeverMeet(id: string, logicalKey: string, id': string, logicalKey': string)
    ensures EndpointKey(id, logicalKey) == EndpointKey(id', logicalKey') <==> id == id' && logicalKey == logicalKey'
  {
    ParseInvertsKey(id, logicalKey);
    ParseInvertsKey(id', logicalKey');
  }

  /** What is read as a pair: exactly the texts of that shape, whatever zeros lead the number. */
  lemma ParsedExactlyWhen(key: string, id: string, logicalKey: string)
    ensures ParseEndpointKey(key) == Some(Parsed(id, logicalKey)) <==>
            exists length: string ::
              length != [] && AllDigits(length) && Read(length) == |id| &&
              key == PREFIX + length + ":" + id + ":" + logicalKey
  {
    if ParseEndpointKey(key) == Some(Parsed(id, logicalKey)) {
      var rest := key[|PREFIX|..];
      var length := rest[..IndexOf(rest, ':')];
      assert key == PREFIX + length + ":" + id + ":" + logicalKey;
    }
    forall length: string |
      length != [] && AllDigits(length) && Read(length) == |id| && key == PREFIX + length + ":" + id + ":" + logicalKey
      ensures ParseEndpointKey(key) == Some(Parsed(id, logicalKey))
    {
      ParseOf(length, id, logicalKey);
    }
  }

  /** As here: a length with a leading zero is read, though no endpoint's key is written so. */
  lemma LeadingZeroIsRead(id: string, logicalKey: string)
    ensures ParseEndpointKey("ep:01:a:k") == Some(Parsed("a", "k")) && "ep:01:a:k" != EndpointKey(id, logicalKey)
  {
    assert Read("01") == 1 by {
      assert "01"[..1] == "0" && "0"[..0] == "";
      assert Read("0") == 0;
    }
    ParseOf("01", "a", "k");
    assert PREFIX + "01" + ":" + "a" + ":" + "k" == "ep:01:a:k";
    assert EndpointKey("a", "k")[3] == '1' && "ep:01:a:k"[3] == '0';
    ParseInvertsKey(id, logicalKey);
    hide EndpointKey, ParseEndpointKey;
  }

  // ── One endpoint's keys in a store ──

  datatype Item = Item(key: string, value: string)

  predicate BelongsTo(key: string, id: string) {
    var parsed := ParseEndpointKey(key);
    parsed.Some? && parsed.value.id == id
  }

  /** The items whose keys are not among *gone*, in their order. */
  function Without(items: seq<Item>, gone: set<string>): seq<Item> {
    if items == [] then []
    else
      var rest := Without(items[..|items| - 1], gone);
      var item := items[|items| - 1];
      if item.key in gone then rest else rest + [item]
  }

  function Keys(items: seq<Item>): seq<string> {
    seq(|items|, i requires 0 <= i < |items| => items[i].key)
  }

  function Lookup(items: seq<Item>, key: string): Option<string> {
    if items == [] then None
    else if items[|items| - 1].key == key then Some(items[|items| - 1].value)
    else Lookup(items[..|items| - 1], key)
  }

  predicate Distinct(items: seq<Item>) {
    forall i, j | 0 <= i < j < |items| :: items[i].key != items[j].key
  }

  lemma {:induction false} WithoutHas(items: seq<Item>, gone: set<string>)
    ensures forall item :: item in Without(items, gone) <==> item in items && item.key !in gone
  {
    if items != [] {
      var front, last := items[..|items| - 1], items[|items| - 1];
      WithoutHas(front, gone);
      assert items == front + [last];
    }
  }

  lemma {:induction false} WithoutDistinct(items: seq<Item>, gone: set<string>)
    requires Distinct(items)
    ensures Distinct(Without(items, gone))
  {
    if items != [] {
      var front := items[..|items| - 1];
      WithoutDistinct(front, gone);
      WithoutHas(front, gone);
    }
  }

  lemma {:induction false} WithoutTwice(items: seq<Item>, gone: set<string>, more: set<string>)
    ensures Without(Without(items, gone), more) == Without(items, gone + more)
  {
    if items != [] {
      var front, last := items[..|items| - 1], items[|items| - 1];
      WithoutTwice(front, gone, more);
      var kept := Without(front, gone);
      assert (kept + [last])[..|kept + [last]| - 1] == kept;
    }
  }

  lemma {:induction false} WithoutNone(items: seq<Item>)
    ensures Without(items, {}) == items
  {
    if items != [] {
      WithoutNone(items[..|items| - 1]);
    }
  }

  lemma {:induction false} WithoutLookup(items: seq<Item>, gone: set<string>, key: string)
    ensures Lookup(Without(items, gone), key) == if key in gone then None else Lookup(items, key)
  {
    if items != [] {
      var front, last := items[..|items| - 1], items[|items| - 1];
      WithoutLookup(front, gone, key);
      var kept := Without(front, gone);
      assert (kept + [last])[..|kept + [last]| - 1] == kept;
    }
  }

  ghost function Mine(keys: seq<string>, id: string): set<string> {
    set key | key in keys && BelongsTo(key, id)
  }

  /** A store of the browser's kind: its keys in some order, an index naming one of them only until a key
      is removed. */
  class Store {
    var items: seq<Item>

    ghost predicate Valid()
      reads this
    {
      Distinct(items)
    }

    constructor ()
      ensures Valid() && items == []
    {
      items := [];
    }

    method KeyAt(i: nat) returns (key: Option<string>)
      ensures key == if i < |items| then Some(items[i].key) else None
    {
      if i < |items| {
        return Some(items[i].key);
      }
      return None;
    }

    method GetItem(key: string) returns (value: Option<string>)
      ensures value == Lookup(items, key)
    {
      var i := |items|;
      assert items[..i] == items;
      while i > 0
        invariant 0 <= i <= |items|
        invariant Lookup(items[..i], key) == Lookup(items, key)
      {
        assert items[..i][..i - 1] == items[..i - 1];
        if items[i - 1].key == key {
          return Some(items[i - 1].value);
        }
        i := i - 1;
      }
      return None;
    }

    /** Remove *key*; the items after it move down an index. */
    method RemoveItem(key: string)
      requires Valid()
      modifies this
      ensures Valid() && items == Without(old(items), {key})
    {
      var kept, i := [], 0;
      while i < |items|
        invariant 0 <= i <= |items|
        invariant items == old(items)
        invariant kept == Without(items[..i], {key})
      {
        assert items[..i + 1][..i] == items[..i];
        if items[i].key != key {
          kept := kept + [items[i]];
        }
        i := i + 1;
      }
      assert items[..i] == items;
      WithoutDistinct(items, {key});
      items := kept;
    }

    /** Every key there is, taken before any is removed. */
    method SnapshotKeys() returns (keys: seq<string>)
      ensures keys == Keys(items)
    {
      keys := [];
      var i := 0;
      while i < |items|
        invariant 0 <= i <= |items|
        invariant keys == Keys(items[..i])
      {
        var key := KeyAt(i);
        if key.Some? {
          keys := keys + [key.value];
        }
        i := i + 1;
      }
      assert items[..i] == items;
    }

    /** Forget endpoint *id*: exactly the keys that name it go, and the rest keep their order. */
    method ClearEndpointState(id: string)
      requires Valid()
      modifies this
      ensures Valid() && items == Without(old(items), Mine(Keys(old(items)), id))
    {
      hide ParseEndpointKey, Without, Distinct;
      var keys := SnapshotKeys();
      WithoutNone(items);
      assert Mine(keys[..0], id) == {};
      var i := 0;
      while i < |keys|
        invariant 0 <= i <= |keys|
        invariant Valid()
        invariant items == Without(old(items), Mine(keys[..i], id))
      {
        ghost var gone := Mine(keys[..i], id);
        assert keys[..i + 1] == keys[..i] + [keys[i]];
        var parsed := ParseEndpointKey(keys[i]);
        if parsed.Some? && parsed.value.id == id {
          RemoveItem(keys[i]);
          WithoutTwice(old(items), gone, {keys[i]});
          assert Mine(keys[..i + 1], id) == gone + {keys[i]};
        } else {
          assert Mine(keys[..i + 1], id) == gone;
        }
        i := i + 1;
      }
      assert keys[..i] == keys;
    }
  }

  lemma {:induction false} LookupNone(items: seq<Item>, key: string)
    ensures Lookup(items, key).None? <==> key !in Keys(items)
  {
    if items != [] {
      var front := items[..|items| - 1];
      LookupNone(front, key);
      assert Keys(items) == Keys(front) + [items[|items| - 1].key];
    }
  }

  lemma ClearedLookup(items: seq<Item>, id: string, key: string)
    ensures Lookup(Without(items, Mine(Keys(items), id)), key) == if BelongsTo(key, id) then None else Lookup(items, key)
  {
    hide BelongsTo, Lookup, Without, Keys;
    WithoutLookup(items, Mine(Keys(items), id), key);
    LookupNone(items, key);
  }

  lemma WhoseKey(id: string, other: string, logicalKey: string)
    ensures BelongsTo(EndpointKey(other, logicalKey), id) <==> other == id
    ensures !BelongsTo("companion:endpoints", id)
  {
    ParseInvertsKey(other, logicalKey);
    assert "companion:endpoints"[0] != PREFIX[0];
  }

  /** Forgetting one endpoint: each of its logical keys is gone, and whatever any other endpoint, or the
      shell's own list of endpoints, keeps is as it was. */
  lemma ForgetsOneEndpointOnly(items: seq<Item>, id: string, other: string, logicalKey: string)
    ensures var cleared := Without(items, Mine(Keys(items), id));
            && Lookup(cleared, EndpointKey(id, logicalKey)).None?
            && (other != id ==> Lookup(cleared, EndpointKey(other, logicalKey)) == Lookup(items, EndpointKey(other, logicalKey)))
            && Lookup(cleared, "companion:endpoints") == Lookup(items, "companion:endpoints")
            && (forall key :: Lookup(cleared, key) == if BelongsTo(key, id) then None else Lookup(items, key))
  {
    hide BelongsTo, Lookup, Without, Keys, EndpointKey, Mine;
    WhoseKey(id, id, logicalKey);
    WhoseKey(id, other, logicalKey);
    forall key
      ensures Lookup(Without(items, Mine(Keys(items), id)), key) == if BelongsTo(key, id) then None else Lookup(items, key)
    {
      ClearedLookup(items, id, key);
    }
  }
}
