/**
 `add_record` and `modify_record`: gather the named arguments whose value is
 not `None` into one dictionary keyed by the Python parameter names, update it
 with the extra keyword arguments, and pass it to the external validator. An
 invalid record raises `ValueError("Error: " + error)`. A valid one reaches
 `self._auth_params({record_data})`, whose set display of a dictionary raises
 `TypeError` (a dictionary is unhashable) before `make_request` is called. So
 neither operation ever reaches the transport.
 */
module Records {
  import opened Wire
  import opened Dispatch
  import opened Operations

  /** The external validator: the record data to (valid, error detail). */
  type Validator = map<string, Value> -> (bool, string)

  const Unhashable: string := "unhashable type: 'dict'"

  /** No parameter name occurs twice, as holds of a Python signature. */
  predicate DistinctKeys(named: seq<Pair>) {
    forall i, j :: 0 <= i < j < |named| ==> named[i].0 != named[j].0
  }

  /** The dictionary comprehension over the named arguments: every argument
      whose value is not `None`, under its own name. */
  function Collected(named: seq<Pair>): map<string, Value>
    decreases |named|
  {
    if named == [] then map[]
    else
      var last := named[|named| - 1];
      if last.1 != VNone then Collected(named[..|named| - 1])[last.0 := last.1]
      else Collected(named[..|named| - 1])
  }

  /** The comprehension holds exactly the named arguments that are not `None`,
      each with its own value. */
  lemma {:induction false} CollectedMeaning(named: seq<Pair>)
    ensures forall k :: k in Collected(named) ==> Collected(named)[k] != VNone
    ensures forall k :: k in Collected(named) <==>
              exists i :: 0 <= i < |named| && named[i].0 == k && named[i].1 != VNone
    ensures DistinctKeys(named) ==>
              forall i :: 0 <= i < |named| && named[i].1 != VNone ==> Collected(named)[named[i].0] == named[i].1
    decreases |named|
  {
    if named != [] {
      var front := named[..|named| - 1];
      assert forall i :: 0 <= i < |front| ==> front[i] == named[i];
      CollectedMeaning(front);
    }
  }

  /** The record data handed to the validator: the collected named arguments
      updated with the keyword arguments. A `None` value can only come from
      the keyword arguments, and a keyword argument wins over a named one. */
  function RecordData(named: seq<Pair>, kwargs: map<string, Value>): (r: map<string, Value>)
    ensures forall k :: k in kwargs ==> k in r && r[k] == kwargs[k]
    ensures forall k :: k in r && r[k] == VNone ==> k in kwargs && kwargs[k] == VNone
    ensures forall k :: k in r <==> k in kwargs || exists i :: 0 <= i < |named| && named[i].0 == k && named[i].1 != VNone
    ensures DistinctKeys(named) ==>
              forall i :: 0 <= i < |named| && named[i].1 != VNone && named[i].0 !in kwargs ==> r[named[i].0] == named[i].1
  {
    CollectedMeaning(named);
    Collected(named) + kwargs
  }

  /** The record data of `add_record` and `modify_record`: the dictionary
      comprehension walks the named arguments in order, then the dictionary
      is updated with the keyword arguments. */
  method Gather(named: seq<Pair>, kwargs: map<string, Value>) returns (data: map<string, Value>)
    ensures data == RecordData(named, kwargs)
  {
    data := map[];
    var i := 0;
    while i < |named|
      invariant 0 <= i <= |named|
      invariant data == Collected(named[..i])
    {
      assert named[..i + 1][..i] == named[..i];
      var (k, v) := named[i];
      if v != VNone {
        data := data[k := v];
      }
      i := i + 1;
    }
    assert named[..|named|] == named;
    data := data + kwargs;
  }

  /** The named arguments of `add_record`, in declaration order. */
  function AddRecordArguments(domainName: Value, recordType: Value, record: Value, host: Value, ttl: Value): seq<Pair> {
    [("domain_name", domainName), ("record_type", recordType), ("record", record), ("host", host), ("ttl", ttl)]
  }

  /** The named arguments of `modify_record`, in declaration order. */
  function ModifyRecordArguments(domainName: Value, recordId: Value, host: Value, record: Value, ttl: Value): seq<Pair> {
    [("domain_name", domainName), ("record_id", recordId), ("host", host), ("record", record), ("ttl", ttl)]
  }

  /** The outcome once the record data has been validated. */
  function Verdict(validation: (bool, string)): Outcome {
    if validation.0 then TypeError(Unhashable) else InvalidArgument("Error: " + validation.1)
  }

  /** `add_record`: an invalid record fails with the validator's error, a
      valid one with the `TypeError`, and no request is sent either way. */
  method AddRecord(c: Client, transport: Transport, validate: Validator, domainName: Value, recordType: Value,
                   record: Value := VNone, host: Value := VStr(""), ttl: Value := VInt(3600),
                   kwargs: map<string, Value> := map[]) returns (r: Exchange)
    ensures r.sent == []
    ensures var data := RecordData(AddRecordArguments(domainName, recordType, record, host, ttl), kwargs);
            && (!validate(data).0 ==> r.outcome == InvalidArgument("Error: " + validate(data).1))
            && (validate(data).0 ==> r.outcome == TypeError(Unhashable))
  {
    var data := Gather(AddRecordArguments(domainName, recordType, record, host, ttl), kwargs);
    var validation := validate(data);
    r := Exchange([], Verdict(validation));
  }

  /** `modify_record`: as `add_record`, with the record id among the named
      arguments. */
  method ModifyRecord(c: Client, transport: Transport, validate: Validator, domainName: Value, recordId: Value,
                      host: Value := VStr(""), record: Value := VNone, ttl: Value := VInt(3600),
                      kwargs: map<string, Value> := map[]) returns (r: Exchange)
    ensures r.sent == []
    ensures var data := RecordData(ModifyRecordArguments(domainName, recordId, host, record, ttl), kwargs);
            && (!validate(data).0 ==> r.outcome == InvalidArgument("Error: " + validate(data).1))
            && (validate(data).0 ==> r.outcome == TypeError(Unhashable))
  {
    var data := Gather(ModifyRecordArguments(domainName, recordId, host, record, ttl), kwargs);
    var validation := validate(data);
    r := Exchange([], Verdict(validation));
  }

  /** What the validator sees for `add_record`: each named argument that is
      not `None` under its parameter name, unless a keyword argument of the
      same name replaces it, and nothing else besides the keyword arguments. */
  lemma AddRecordData(domainName: Value, recordType: Value, record: Value, host: Value, ttl: Value,
                      kwargs: map<string, Value>)
    ensures var data := RecordData(AddRecordArguments(domainName, recordType, record, host, ttl), kwargs);
            && (domainName != VNone && "domain_name" !in kwargs ==> "domain_name" in data && data["domain_name"] == domainName)
            && (recordType != VNone && "record_type" !in kwargs ==> "record_type" in data && data["record_type"] == recordType)
            && (record == VNone && "record" !in kwargs ==> "record" !in data)
            && (forall k :: k in data ==> k in kwargs || k in {"domain_name", "record_type", "record", "host", "ttl"})
  {
    var named := AddRecordArguments(domainName, recordType, record, host, ttl);
    assert DistinctKeys(named);
    assert named[0] == ("domain_name", domainName) && named[1] == ("record_type", recordType);
  }
}
