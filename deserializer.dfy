/**
 * The two map-reshaping field deserializers: `kf_remover`, which drops the feed's `"_kf"`
 * bookkeeping key and silently discards entries that do not decode, and `flatten_map_to_vec`,
 * which turns a keyed map into a list of its decoded values and fails as a whole on any bad
 * entry.  Each is a method that walks the map in an unspecified order (as a Rust `HashMap`
 * does) and a function that states what it computes.
 */
module Deserializer {
  import opened Wrappers
  import opened Json

  /** Why a field deserializer failed: the value was not a string-keyed map, or (flatten only)
      one entry did not convert. */
  datatype DeError = NotAMap | InvalidItem

  /** The bookkeeping key the feed adds to keyed maps. */
  const KF: string := "_kf"

  /** `out` is what `kf_remover` keeps of `raw`: no `"_kf"`, exactly the other keys whose value
      converts, each holding its value's conversion. */
  ghost predicate IsKfFiltered<T>(raw: map<string, Value>, conv: Value -> Option<T>, out: map<string, T>) {
    && KF !in out
    && (forall k :: k in out <==> k in raw && k != KF && conv(raw[k]).Some?)
    && (forall k :: k in out ==> k in raw && conv(raw[k]) == Some(out[k]))
  }

  /** The result of `kf_remover`. */
  function KfFilter<T>(v: Value, conv: Value -> Option<T>): (r: Result<map<string, T>, DeError>)
    ensures r.Ok? <==> v.Object?
    ensures r.Err? ==> r.error == NotAMap
    ensures r.Ok? ==> IsKfFiltered(v.fields, conv, r.value)
  {
    match v
    case Object(raw) => Ok(map k | k in raw && k != KF && conv(raw[k]).Some? :: conv(raw[k]).value)
    case _ => Err(NotAMap)
  }

  /** `kf_remover`: remove `"_kf"` from the raw map, then insert every entry that converts. */
  method KfRemover<T>(v: Value, conv: Value -> Option<T>) returns (r: Result<map<string, T>, DeError>)
    ensures r == KfFilter(v, conv)
  {
    if !v.Object? {
      return Err(NotAMap);
    }
    var kept: map<string, T> := map[];
    var rawMap := v.fields;
    rawMap := rawMap - {KF};
    var pending := rawMap.Keys;
    while pending != {}
      invariant pending <= rawMap.Keys
      invariant forall k :: k in kept <==> k in rawMap && k !in pending && conv(rawMap[k]).Some?
      invariant forall k :: k in kept ==> k in rawMap && conv(rawMap[k]) == Some(kept[k])
      decreases pending
    {
      var key :| key in pending;
      var item := conv(rawMap[key]);
      if item.Some? {
        kept := kept[key := item.value];
      }
      pending := pending - {key};
    }
    ghost var spec := KfFilter(v, conv).value;
    assert forall k :: k in rawMap ==> k in v.fields && k != KF && rawMap[k] == v.fields[k];
    assert kept.Keys == spec.Keys;
    assert forall k :: k in kept ==> kept[k] == spec[k];
    assert kept == spec;
    return Ok(kept);
  }

  /** Every value of `raw` converts. */
  ghost predicate AllConvert<T>(raw: map<string, Value>, conv: Value -> Option<T>) {
    forall k :: k in raw ==> conv(raw[k]).Some?
  }

  /** The converted values of `raw`, counted with multiplicity and without their keys. */
  ghost function ConvertedBag<T>(raw: map<string, Value>, conv: Value -> Option<T>): multiset<T>
    requires AllConvert(raw, conv)
    decreases |raw|
  {
    if raw == map[] then multiset{}
    else
      var k :| k in raw;
      assert |raw - {k}| < |raw| by { assert (raw - {k}).Keys + {k} == raw.Keys; }
      ConvertedBag(raw - {k}, conv) + multiset{conv(raw[k]).value}
  }

  /** Any entry can be taken out of the bag first: the bag does not depend on the order in
      which the entries are visited. */
  lemma {:induction false} ConvertedBagRemove<T>(raw: map<string, Value>, conv: Value -> Option<T>, key: string)
    requires AllConvert(raw, conv) && key in raw
    ensures ConvertedBag(raw, conv) == ConvertedBag(raw - {key}, conv) + multiset{conv(raw[key]).value}
    decreases |raw|
  {
    var k :| k in raw && ConvertedBag(raw, conv) == ConvertedBag(raw - {k}, conv) + multiset{conv(raw[k]).value};
    if k != key {
      var withoutK := raw - {k};
      var withoutKey := raw - {key};
      RemoveOne(raw, conv, k);
      RemoveOne(raw, conv, key);
      assert key in withoutK && withoutK[key] == raw[key];
      assert k in withoutKey && withoutKey[k] == raw[k];
      ConvertedBagRemove(withoutK, conv, key);
      ConvertedBagRemove(withoutKey, conv, k);
      var rest := withoutK - {key};
      RemoveTwo(raw, k, key);
      var vk, vkey := conv(raw[k]).value, conv(raw[key]).value;
      calc {
        ConvertedBag(raw, conv);
        ConvertedBag(withoutK, conv) + multiset{vk};
        ConvertedBag(rest, conv) + multiset{vkey} + multiset{vk};
        ConvertedBag(rest, conv) + multiset{vk} + multiset{vkey};
        ConvertedBag(withoutKey, conv) + multiset{vkey};
      }
    } else {
      assert raw - {k} == raw - {key};
    }
  }

  /** Taking two entries out in either order leaves the same map. */
  lemma RemoveTwo(raw: map<string, Value>, a: string, b: string)
    ensures raw - {a} - {b} == raw - {b} - {a}
  {
    assert (raw - {a} - {b}).Keys == (raw - {b} - {a}).Keys;
  }

  /** Taking one entry out keeps every value convertible and shrinks the map by one. */
  lemma RemoveOne<T>(raw: map<string, Value>, conv: Value -> Option<T>, k: string)
    requires AllConvert(raw, conv) && k in raw
    ensures AllConvert(raw - {k}, conv) && |raw - {k}| == |raw| - 1
  {
    assert (raw - {k}).Keys + {k} == raw.Keys;
  }

  /** One bag element per map entry. */
  lemma {:induction false} ConvertedBagSize<T>(raw: map<string, Value>, conv: Value -> Option<T>)
    requires AllConvert(raw, conv)
    ensures |ConvertedBag(raw, conv)| == |raw|
    decreases |raw|
  {
    if raw != map[] {
      var k :| k in raw;
      assert (raw - {k}).Keys + {k} == raw.Keys;
      ConvertedBagRemove(raw, conv, k);
      ConvertedBagSize(raw - {k}, conv);
    }
  }

  /** Every element of the bag is the conversion of some entry. */
  lemma {:induction false} ConvertedBagSource<T>(raw: map<string, Value>, conv: Value -> Option<T>, x: T)
    requires AllConvert(raw, conv) && x in ConvertedBag(raw, conv)
    ensures exists k :: k in raw && conv(raw[k]) == Some(x)
    decreases |raw|
  {
    var k :| k in raw;
    assert (raw - {k}).Keys + {k} == raw.Keys;
    ConvertedBagRemove(raw, conv, k);
    if conv(raw[k]) != Some(x) {
      ConvertedBagSource(raw - {k}, conv, x);
      var k' :| k' in raw - {k} && conv((raw - {k})[k']) == Some(x);
      assert k' in raw && conv(raw[k']) == Some(x);
    }
  }

  /** `bag` is what `flatten_map_to_vec` yields from `raw`, up to order: every value converted,
      and the keys dropped. */
  ghost predicate IsFlattened<T>(raw: map<string, Value>, conv: Value -> Option<T>, bag: multiset<T>) {
    AllConvert(raw, conv) && bag == ConvertedBag(raw, conv)
  }

  /** Visiting one more entry adds its conversion to the bag of the visited entries. */
  lemma ConvertedBagVisit<T>(raw: map<string, Value>, pending: set<string>, conv: Value -> Option<T>, key: string)
    requires key in pending && pending <= raw.Keys
    requires AllConvert(raw - pending, conv) && conv(raw[key]).Some?
    ensures AllConvert(raw - (pending - {key}), conv)
    ensures ConvertedBag(raw - (pending - {key}), conv) == ConvertedBag(raw - pending, conv) + multiset{conv(raw[key]).value}
  {
    var after := raw - (pending - {key});
    assert after - {key} == raw - pending;
    forall k | k in after ensures conv(after[k]).Some? {
      if k != key {
        assert k in raw - pending;
      }
    }
    ConvertedBagRemove(after, conv, key);
  }

  /** The result of `flatten_map_to_vec`, up to the order of the list: `HashMap` iteration
      order is unspecified, so only the multiset of the list's elements is determined. */
  ghost function Flatten<T>(v: Value, conv: Value -> Option<T>): (r: Result<multiset<T>, DeError>)
    ensures r == Err(NotAMap) <==> !v.Object?
    ensures r == Err(InvalidItem) <==> v.Object? && exists k :: k in v.fields && conv(v.fields[k]).None?
    ensures r.Ok? ==> |r.value| == |v.fields| && IsFlattened(v.fields, conv, r.value)
    ensures r.Ok? ==> forall k :: k in v.fields ==> conv(v.fields[k]).Some? && conv(v.fields[k]).value in r.value
    ensures r.Ok? ==> forall x :: x in r.value ==> exists k :: k in v.fields && conv(v.fields[k]) == Some(x)
  {
    if !v.Object? then Err(NotAMap)
    else if !AllConvert(v.fields, conv) then Err(InvalidItem)
    else
      var bag := ConvertedBag(v.fields, conv);
      ConvertedBagSize(v.fields, conv);
      assert forall k :: k in v.fields ==> conv(v.fields[k]).value in bag by {
        forall k | k in v.fields ensures conv(v.fields[k]).value in bag {
          ConvertedBagRemove(v.fields, conv, k);
        }
      }
      assert forall x :: x in bag ==> exists k :: k in v.fields && conv(v.fields[k]) == Some(x) by {
        forall x | x in bag ensures exists k :: k in v.fields && conv(v.fields[k]) == Some(x) {
          ConvertedBagSource(v.fields, conv, x);
        }
      }
      Ok(bag)
  }

  /** `flatten_map_to_vec`: push the conversion of every value, in the map's iteration order,
      and stop with an error at the first value that does not convert. */
  method FlattenMapToVec<T>(v: Value, conv: Value -> Option<T>) returns (r: Result<seq<T>, DeError>)
    ensures r.Err? <==> Flatten(v, conv).Err?
    ensures r.Err? ==> r.error == Flatten(v, conv).error
    ensures r.Ok? ==> v.Object? && |r.value| == |v.fields|
    ensures r.Ok? ==> multiset(r.value) == Flatten(v, conv).value
  {
    if !v.Object? {
      return Err(NotAMap);
    }
    var raw := v.fields;
    var vec: seq<T> := [];
    var pending := raw.Keys;
    while pending != {}
      invariant pending <= raw.Keys
      invariant AllConvert(raw - pending, conv)
      invariant multiset(vec) == ConvertedBag(raw - pending, conv)
      decreases pending
    {
      var key :| key in pending;
      var item := conv(raw[key]);
      if item.None? {
        return Err(InvalidItem);
      }
      ConvertedBagVisit(raw, pending, conv, key);
      vec := vec + [item.value];
      pending := pending - {key};
    }
    assert raw - pending == raw;
    ConvertedBagSize(raw, conv);
    return Ok(vec);
  }
}
