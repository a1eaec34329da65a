/**
 The two operations of `ClouDNSAPI` that build their parameters as an ordered
 list of pairs, so that an array parameter can repeat its key (`ns[]`,
 `record-types[]`): `register_domain_zone` and `import_records`. Each list is
 grown by appending inside a loop, and then passed to `make_request` as
 `params=` of a POST.
 */
module PairLists {
  import opened Wire
  import opened Dispatch
  import opened Operations

  const RegisterEndpoint: string := "dns/register.json"
  const ImportEndpoint: string := "dns/records-import.json"

  /** The four pairs `register_domain_zone` starts its list with. */
  function RegisterPrefix(c: Client, domainName: Value, zoneType: Value): seq<Pair> {
    [("auth-id", c.authId), ("auth-password", c.authPassword), ("domain-name", domainName),
     ("zone-type", zoneType)]
  }

  /** The five pairs `import_records` starts its list with. */
  function ImportPrefix(c: Client, domainName: Value, format: Value, content: Value): seq<Pair> {
    [("auth-id", c.authId), ("auth-password", c.authPassword), ("domain-name", domainName),
     ("format", format), ("content", content)]
  }

  /** The layout of `register_domain_zone`'s list: the fixed prefix, one
      `ns[]` pair per name server in input order, and a final `master-ip`
      pair exactly when the master address is truthy. */
  predicate RegisterLayout(params: seq<Pair>, c: Client, domainName: Value, zoneType: Value,
                           ns: Option<seq<Value>>, masterIp: Value) {
    && |params| == 4 + |Elements(ns)| + (if Truthy(masterIp) then 1 else 0)
    && params[..4] == RegisterPrefix(c, domainName, zoneType)
    && (forall i :: 0 <= i < |Elements(ns)| ==> params[4 + i] == ("ns[]", Elements(ns)[i]))
    && (Truthy(masterIp) ==> params[|params| - 1] == ("master-ip", masterIp))
  }

  /** The layout of `import_records`' list: the fixed prefix, one
      `record-types[]` pair per type in input order, and one final
      `delete-existing-records` pair holding the encoded flag. */
  predicate ImportLayout(params: seq<Pair>, c: Client, domainName: Value, format: Value, content: Value,
                         deleteExistingRecords: Value, recordTypes: Option<seq<Value>>) {
    && |params| == 6 + |Elements(recordTypes)|
    && params[..5] == ImportPrefix(c, domainName, format, content)
    && (forall i :: 0 <= i < |Elements(recordTypes)| ==>
          params[5 + i] == ("record-types[]", Elements(recordTypes)[i]))
    && params[|params| - 1] == ("delete-existing-records", FlagValue(deleteExistingRecords))
  }

  /** The list `register_domain_zone` builds: the fixed pairs, one `ns[]`
      pair appended per name server, then `master-ip` when it is truthy. */
  method RegisterDomainZoneParams(c: Client, domainName: Value, zoneType: Value, ns: Option<seq<Value>>,
                                  masterIp: Value) returns (params: seq<Pair>)
    ensures RegisterLayout(params, c, domainName, zoneType, ns, masterIp)
  {
    params := RegisterPrefix(c, domainName, zoneType);
    var servers := Elements(ns);
    if ListTruthy(ns) {
      var i := 0;
      while i < |servers|
        invariant 0 <= i <= |servers|
        invariant |params| == 4 + i
        invariant params[..4] == RegisterPrefix(c, domainName, zoneType)
        invariant forall j :: 0 <= j < i ==> params[4 + j] == ("ns[]", servers[j])
      {
        params := params + [("ns[]", servers[i])];
        i := i + 1;
      }
    }
    if Truthy(masterIp) {
      params := params + [("master-ip", masterIp)];
    }
  }

  /** In `register_domain_zone`'s list, `ns[]` occurs once per name server
      and `master-ip` at most once, exactly when it is truthy. */
  lemma RegisterCounts(params: seq<Pair>, c: Client, domainName: Value, zoneType: Value,
                       ns: Option<seq<Value>>, masterIp: Value)
    requires RegisterLayout(params, c, domainName, zoneType, ns, masterIp)
    ensures KeyCount(params, "ns[]") == |Elements(ns)|
    ensures KeyCount(params, "master-ip") == (if Truthy(masterIp) then 1 else 0)
  {
    var n := |Elements(ns)|;
    forall i | 0 <= i < |params|
      ensures params[i].0 == "ns[]" <==> 4 <= i < 4 + n
      ensures params[i].0 == "master-ip" <==> 4 + n <= i
    {
      if i < 4 {
        assert params[i] == params[..4][i];
      } else if i < 4 + n {
        assert params[4 + (i - 4)] == ("ns[]", Elements(ns)[i - 4]);
      }
    }
    KeyCountRange(params, 4, 4 + n, "ns[]");
    KeyCountRange(params, 4 + n, |params|, "master-ip");
  }

  /** `register_domain_zone`: a POST to `dns/register.json` whose list is
      passed as `params=`, so the body handed to the transport is empty. */
  method RegisterDomainZone(c: Client, transport: Transport, domainName: Value, zoneType: Value,
                            ns: Option<seq<Value>> := None, masterIp: Value := VNone) returns (r: Exchange)
    ensures r.sent == [Post(Url(RegisterEndpoint), Dict(map[]))]
    ensures |r.sent| == 1 && r.outcome == Conclude(transport(r.sent[0]))
  {
    var params := RegisterDomainZoneParams(c, domainName, zoneType, ns, masterIp);
    r := MakeRequest(RegisterEndpoint, "POST", Some(Pairs(params)), None, transport);
  }

  /** The list `import_records` builds: the fixed pairs, one
      `record-types[]` pair appended per type, then the encoded flag. */
  method ImportRecordsParams(c: Client, domainName: Value, format: Value, content: Value,
                             deleteExistingRecords: Value, recordTypes: Option<seq<Value>>)
    returns (params: seq<Pair>)
    ensures ImportLayout(params, c, domainName, format, content, deleteExistingRecords, recordTypes)
  {
    params := ImportPrefix(c, domainName, format, content);
    var types := Elements(recordTypes);
    if ListTruthy(recordTypes) {
      var i := 0;
      while i < |types|
        invariant 0 <= i <= |types|
        invariant |params| == 5 + i
        invariant params[..5] == ImportPrefix(c, domainName, format, content)
        invariant forall j :: 0 <= j < i ==> params[5 + j] == ("record-types[]", types[j])
      {
        params := params + [("record-types[]", types[i])];
        i := i + 1;
      }
    }
    if Truthy(deleteExistingRecords) {
      params := params + [("delete-existing-records", VInt(1))];
    } else {
      params := params + [("delete-existing-records", VInt(0))];
    }
  }

  /** In `import_records`' list, `record-types[]` occurs once per type and
      `delete-existing-records` exactly once. */
  lemma ImportCounts(params: seq<Pair>, c: Client, domainName: Value, format: Value, content: Value,
                     deleteExistingRecords: Value, recordTypes: Option<seq<Value>>)
    requires ImportLayout(params, c, domainName, format, content, deleteExistingRecords, recordTypes)
    ensures KeyCount(params, "record-types[]") == |Elements(recordTypes)|
    ensures KeyCount(params, "delete-existing-records") == 1
  {
    var n := |Elements(recordTypes)|;
    forall i | 0 <= i < |params|
      ensures params[i].0 == "record-types[]" <==> 5 <= i < 5 + n
      ensures params[i].0 == "delete-existing-records" <==> 5 + n <= i
    {
      if i < 5 {
        assert params[i] == params[..5][i];
      } else if i < 5 + n {
        assert params[5 + (i - 5)] == ("record-types[]", Elements(recordTypes)[i - 5]);
      }
    }
    KeyCountRange(params, 5, 5 + n, "record-types[]");
    KeyCountRange(params, 5 + n, |params|, "delete-existing-records");
  }

  /** `import_records`: a POST to `dns/records-import.json` whose list is
      passed as `params=`, so the body handed to the transport is empty. */
  method ImportRecords(c: Client, transport: Transport, domainName: Value, format: Value := VStr("bind"),
                       content: Value := VStr(""), deleteExistingRecords: Value := VBool(false),
                       recordTypes: Option<seq<Value>> := None) returns (r: Exchange)
    ensures r.sent == [Post(Url(ImportEndpoint), Dict(map[]))]
    ensures |r.sent| == 1 && r.outcome == Conclude(transport(r.sent[0]))
  {
    var params := ImportRecordsParams(c, domainName, format, content, deleteExistingRecords, recordTypes);
    r := MakeRequest(ImportEndpoint, "POST", Some(Pairs(params)), None, transport);
  }
}
