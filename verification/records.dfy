/** Assembling the log record and what the printer receives. */
module Records {
  import opened Values

  /** What the printer is called with: the record serialised with
      `JSON.stringify`, or the record object itself. Equal records give
      equal texts; the model keeps `Stringified` one-to-one, which real
      JSON text is not, since it drops `undefined` and function values. */
  datatype Output = Stringified(record: Fields) | Raw(record: Fields)

  /** The four keys every record starts with, in this order. */
  const BaseKeys: seq<string> := ["level", "serviceName", "time", "caller"]

  function Base(level: string, serviceName: Value, time: Value, caller: Value): Fields
  {
    [("level", Str(level)), ("serviceName", serviceName), ("time", time), ("caller", caller)]
  }

  /** A payload whose properties the model can order: no array-index keys. */
  predicate PlainPayload(msg: Value)
  {
    msg.Obj? ==> NoIndexKeys(msg.fields)
  }

  /** The record `log` builds: the base keys, then `msg` for a string
      payload, or the payload's own properties spread over the base for an
      object payload; any other payload adds nothing. */
  function MakeRecord(level: string, serviceName: Value, time: Value, caller: Value, msg: Value): (r: Fields)
    requires PlainPayload(msg)
    ensures |r| >= 4 && Keys(r)[..4] == BaseKeys
    ensures DistinctKeys(r) && NoIndexKeys(r)
  {
    var base := Base(level, serviceName, time, caller);
    assert Keys(base) == BaseKeys;
    assert NoIndexKeys(base) by {
      assert !IsArrayIndex("level") && !IsArrayIndex("serviceName");
      assert !IsArrayIndex("time") && !IsArrayIndex("caller");
    }
    match msg
    case Str(_) =>
      var r := base + [("msg", msg)];
      assert Keys(r) == BaseKeys + ["msg"];
      r
    case Obj(fs) =>
      SpreadBaseFacts(base, fs);
      Spread(base, fs)
    case _ => base
  }

  lemma SpreadBaseFacts(base: Fields, fs: Fields)
    requires Keys(base) == BaseKeys && DistinctKeys(base) && NoIndexKeys(base) && NoIndexKeys(fs)
    ensures |Spread(base, fs)| >= 4 && Keys(Spread(base, fs))[..4] == BaseKeys
    ensures DistinctKeys(Spread(base, fs)) && NoIndexKeys(Spread(base, fs))
  {
    SpreadKeepsPositions(base, fs);
    SpreadPreservesDistinct(base, fs);
    SpreadNoIndexKeys(base, fs);
    assert |base| == 4;
    assert Keys(Spread(base, fs))[..4] == Keys(base);
  }

  /** The keys of a record are the base keys, `msg` for a string payload
      and the keys of an object payload, and nothing else. */
  lemma RecordKeys(level: string, serviceName: Value, time: Value, caller: Value, msg: Value)
    requires PlainPayload(msg)
    ensures forall k :: k in Keys(MakeRecord(level, serviceName, time, caller, msg)) <==>
      (k in BaseKeys || (msg.Str? && k == "msg") || (msg.Obj? && k in Keys(msg.fields)))
  {
    var r := MakeRecord(level, serviceName, time, caller, msg);
    if msg.Obj? {
      SpreadKeys(Base(level, serviceName, time, caller), msg.fields);
      NewKeysMembers(BaseKeys, Keys(msg.fields));
    } else if msg.Str? {
      assert Keys(r) == BaseKeys + ["msg"];
    } else {
      assert Keys(r) == BaseKeys;
    }
  }

  /** A string payload adds exactly one key, `msg`, last. */
  lemma TextRecord(level: string, serviceName: Value, time: Value, caller: Value, s: string)
    ensures Keys(MakeRecord(level, serviceName, time, caller, Str(s))) == BaseKeys + ["msg"]
    ensures Lookup(MakeRecord(level, serviceName, time, caller, Str(s)), "msg") == Some(Str(s))
    ensures Lookup(MakeRecord(level, serviceName, time, caller, Str(s)), "level") == Some(Str(level))
  {
    var r := MakeRecord(level, serviceName, time, caller, Str(s));
    assert Keys(r) == BaseKeys + ["msg"];
    assert Find(r, "msg") == Some(4);
    assert Find(r, "level") == Some(0);
  }

  /** An object payload: each payload key keeps the position of an equal
      base key or is appended in payload order; no `msg` is added. */
  lemma FieldsRecordKeys(level: string, serviceName: Value, time: Value, caller: Value, fs: Fields)
    requires NoIndexKeys(fs)
    ensures Keys(MakeRecord(level, serviceName, time, caller, Obj(fs))) == BaseKeys + NewKeys(BaseKeys, Keys(fs))
    ensures "msg" in Keys(MakeRecord(level, serviceName, time, caller, Obj(fs))) <==> "msg" in Keys(fs)
  {
    var base := Base(level, serviceName, time, caller);
    assert Keys(base) == BaseKeys;
    SpreadKeys(base, fs);
    NewKeysMembers(BaseKeys, Keys(fs));
  }

  /** An object payload: a payload key takes the payload's value, every
      other key keeps its base value. */
  lemma FieldsRecordLookup(level: string, serviceName: Value, time: Value, caller: Value, fs: Fields, k: string)
    requires NoIndexKeys(fs)
    ensures Lookup(MakeRecord(level, serviceName, time, caller, Obj(fs)), k) ==
            (if k in Keys(fs) then Lookup(fs, k) else Lookup(Base(level, serviceName, time, caller), k))
  {
    SpreadLookup(Base(level, serviceName, time, caller), fs, k);
  }

  /** A payload that is neither a string nor an object gives the base
      record alone. */
  lemma OtherRecord(level: string, serviceName: Value, time: Value, caller: Value, msg: Value)
    requires !msg.Str? && !msg.Obj?
    ensures MakeRecord(level, serviceName, time, caller, msg) == Base(level, serviceName, time, caller)
  {
  }

  /** The payload of a chained call, `{...state, ...{msg}}`: the state's
      properties with `msg` assigned last. Copying an object with distinct
      keys by spread yields the same properties in the same order. */
  function ChainedPayload(state: Fields, msg: Value): Value
  {
    Obj(Assign(state, "msg", msg))
  }

  /** The chained payload's properties: the state's, then `msg` unless
      the state has it already. */
  lemma ChainedPayloadKeys(state: Fields, msg: Value)
    requires NoIndexKeys(state)
    ensures PlainPayload(ChainedPayload(state, msg))
    ensures Keys(ChainedPayload(state, msg).fields) ==
      Keys(state) + (if "msg" in Keys(state) then [] else ["msg"])
  {
    assert !IsArrayIndex("msg");
    AssignNoIndexKeys(state, "msg", msg);
    AssignSpec(state, "msg", msg);
  }

  /** A chained call's record: `msg` holds the call's payload (an object
      payload is nested, not spread) and every other state key its state
      value. */
  lemma ChainedRecord(level: string, serviceName: Value, time: Value, caller: Value, state: Fields, msg: Value)
    requires NoIndexKeys(state)
    ensures PlainPayload(ChainedPayload(state, msg))
    ensures Lookup(MakeRecord(level, serviceName, time, caller, ChainedPayload(state, msg)), "msg") == Some(msg)
    ensures forall k :: k in Keys(state) && k != "msg" ==>
      Lookup(MakeRecord(level, serviceName, time, caller, ChainedPayload(state, msg)), k) == Lookup(state, k)
  {
    var p := Assign(state, "msg", msg);
    ChainedPayloadKeys(state, msg);
    AssignSpec(state, "msg", msg);
    FieldsRecordLookup(level, serviceName, time, caller, p, "msg");
    forall k | k in Keys(state) && k != "msg"
      ensures Lookup(MakeRecord(level, serviceName, time, caller, Obj(p)), k) == Lookup(state, k)
    {
      FieldsRecordLookup(level, serviceName, time, caller, p, k);
    }
  }

  /** Without base keys in the state, a chained call's record lists the
      base keys, then the state's keys in state order, then `msg` unless
      the state already has it. */
  lemma ChainedRecordKeys(level: string, serviceName: Value, time: Value, caller: Value, state: Fields, msg: Value)
    requires DistinctKeys(state) && NoIndexKeys(state)
    requires forall i :: 0 <= i < |state| ==> state[i].0 !in BaseKeys
    ensures PlainPayload(ChainedPayload(state, msg))
    ensures Keys(MakeRecord(level, serviceName, time, caller, ChainedPayload(state, msg))) ==
      BaseKeys + Keys(state) + (if "msg" in Keys(state) then [] else ["msg"])
  {
    var p := Assign(state, "msg", msg);
    var ks := Keys(state) + (if "msg" in Keys(state) then [] else ["msg"]);
    ChainedPayloadKeys(state, msg);
    assert Keys(p) == ks;
    assert NewKeys(BaseKeys, ks) == ks by {
      assert DistinctKeys(p) by {
        AssignSpec(state, "msg", msg);
      }
      FreshChainedKeys(state, p);
      NewKeysOfFresh(BaseKeys, Keys(p));
    }
    FieldsRecordKeys(level, serviceName, time, caller, p);
  }

  lemma FreshChainedKeys(state: Fields, p: Fields)
    requires DistinctKeys(p)
    requires forall i :: 0 <= i < |state| ==> state[i].0 !in BaseKeys
    requires Keys(p) == Keys(state) + (if "msg" in Keys(state) then [] else ["msg"])
    ensures forall k :: k in Keys(p) ==> k !in BaseKeys
    ensures forall i, j :: 0 <= i < j < |Keys(p)| ==> Keys(p)[i] != Keys(p)[j]
  {
    assert "msg" !in BaseKeys;
  }

  /** Keys that are all new and distinct are appended as they are. */
  lemma {:induction false} NewKeysOfFresh(seen: seq<string>, ks: seq<string>)
    requires forall i, j :: 0 <= i < j < |ks| ==> ks[i] != ks[j]
    requires forall k :: k in ks ==> k !in seen
    ensures NewKeys(seen, ks) == ks
    decreases |ks|
  {
    if ks != [] {
      assert ks[0] !in ks[1..];
      NewKeysOfFresh(seen + [ks[0]], ks[1..]);
    }
  }
}
