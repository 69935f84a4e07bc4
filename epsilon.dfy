/** The Epsilon registration flow: a registration token from `accounts.initRegistration`,
    then `accounts.setAccountInfo` with `profile` and `data` parameters built from the form. */
module Epsilon {
  import opened Base

  /** The form fields the `profile` parameter copies. */
  const ProfileSourceKeys: set<string> := {"firstname", "lastname", "email", "zip", "address", "city", "state"}

  /** The form fields the `data` parameter copies. */
  const DataSourceKeys: set<string> := {
    "title", "credential_type", "date", "specialty", "email", "rep_request", "liason_request", "request_sample"}

  /** Profile field to form field: the renaming `build_profile_param` applies. */
  const ProfileFieldMap: seq<(string, string)> := [
    ("firstName", "firstname"), ("lastName", "lastname"), ("email", "email"), ("zip", "zip"),
    ("address", "address"), ("city", "city"), ("state", "state")]

  /** The `profile` parameter, before `json.dumps`. */
  function Profile(data: map<string, Json>): (p: map<string, Json>)
    requires ProfileSourceKeys <= data.Keys
    ensures p.Keys == {"firstName", "lastName", "email", "zip", "address", "city", "state"}
  {
    map[
      "firstName" := data["firstname"],
      "lastName" := data["lastname"],
      "email" := data["email"],
      "zip" := data["zip"],
      "address" := data["address"],
      "city" := data["city"],
      "state" := data["state"]]
  }

  /** The profile has exactly the fields of the renaming table, and each holds the form
      field the table pairs it with. */
  lemma ProfileFollowsFieldMap(data: map<string, Json>)
    requires ProfileSourceKeys <= data.Keys
    ensures Profile(data).Keys == set i | 0 <= i < |ProfileFieldMap| :: ProfileFieldMap[i].0
    ensures forall i :: 0 <= i < |ProfileFieldMap| ==>
      ProfileFieldMap[i].1 in data && Profile(data)[ProfileFieldMap[i].0] == data[ProfileFieldMap[i].1]
  {
    var p := Profile(data);
    var names := set i | 0 <= i < |ProfileFieldMap| :: ProfileFieldMap[i].0;
    assert ProfileFieldMap[0].0 in names && ProfileFieldMap[1].0 in names && ProfileFieldMap[2].0 in names;
    assert ProfileFieldMap[3].0 in names && ProfileFieldMap[4].0 in names && ProfileFieldMap[5].0 in names;
    assert ProfileFieldMap[6].0 in names;
    forall i | 0 <= i < |ProfileFieldMap|
      ensures ProfileFieldMap[i].1 in data && p[ProfileFieldMap[i].0] == data[ProfileFieldMap[i].1]
    {
      assert ProfileFieldMap[i] in ProfileFieldMap;
    }
  }

  /** Data-parameter field to form field: the fields `build_data_param` copies. */
  const DataFieldMap: seq<(string, string)> := [
    ("profile_title", "title"),
    ("profile_hcp_hco_credential_type", "credential_type"),
    ("brand_adlarity_hcp_hco_channel_pref_email_date", "date"),
    ("global_opt_out_all_marketing_comms_date", "date"),
    ("profile_specialty", "specialty"),
    ("brand_adlarity_hcp_hco_channel_pref_rep_email", "email"),
    ("brand_adlarity_hcp_hco_channel_pref_rep_email_date", "date"),
    ("brand_adlarity_hcp_hco_rep_request", "rep_request"),
    ("brand_adlarity_hcp_hco_rep_request_date", "date"),
    ("brand_adlarity_hcp_hco_med_liaison_request", "liason_request"),
    ("brand_adlarity_hcp_hco_med_liaison_request_date", "date"),
    ("brand_adlarity_hcp_hco_rep_request_sample", "request_sample")]

  /** The fields of the data parameter that hold a fixed value. */
  const DataConstants: seq<(string, Json)> := [
    ("profile_registration_source", JStr("Intouch")),
    ("profile_identity_type_hcp_hco", JStr("Y")),
    ("brand_adlarity_hcp_hco_enrollment_channel", JStr("WEB")),
    ("brand_adlarity_hcp_hco_channel_pref_email", JBool(true)),
    ("global_opt_out_all_marketing_comms", JBool(false)),
    ("terms", JBool(true))]

  /** The field names of a list of entries. */
  function Names<V>(entries: seq<(string, V)>): set<string>
  {
    set i | 0 <= i < |entries| :: entries[i].0
  }

  predicate DistinctNames<V>(entries: seq<(string, V)>)
  {
    forall i, j :: 0 <= i < j < |entries| ==> entries[i].0 != entries[j].0
  }

  /** The dictionary a list of (field, value) entries spells out, later entries last. */
  function Build(entries: seq<(string, Json)>): map<string, Json>
    decreases |entries|
  {
    if entries == [] then map[]
    else Build(entries[..|entries| - 1])[entries[|entries| - 1].0 := entries[|entries| - 1].1]
  }

  /** With distinct names, the dictionary has exactly the listed fields, each with its value. */
  lemma {:induction false} BuildLookup(entries: seq<(string, Json)>)
    requires DistinctNames(entries)
    ensures Build(entries).Keys == Names(entries)
    ensures forall i :: 0 <= i < |entries| ==> Build(entries)[entries[i].0] == entries[i].1
  {
    if entries != [] {
      var n := |entries| - 1;
      var prefix := entries[..n];
      assert DistinctNames(prefix) by {
        forall i, j | 0 <= i < j < |prefix| ensures prefix[i].0 != prefix[j].0 {
          assert prefix[i] == entries[i] && prefix[j] == entries[j];
        }
      }
      BuildLookup(prefix);
      forall x | x in Names(entries) ensures x in Build(entries) {
        var i :| 0 <= i < |entries| && entries[i].0 == x;
        if i < n { assert prefix[i] == entries[i]; }
      }
      forall x | x in Build(entries) ensures x in Names(entries) {
        if x != entries[n].0 {
          var i :| 0 <= i < |prefix| && prefix[i].0 == x;
          assert entries[i] == prefix[i];
        }
      }
      forall i | 0 <= i < |entries| ensures Build(entries)[entries[i].0] == entries[i].1 {
        if i < n { assert prefix[i] == entries[i]; }
      }
    }
  }

  /** The entries a renaming table takes from the form. */
  function Copied(data: map<string, Json>, table: seq<(string, string)>): (r: seq<(string, Json)>)
    requires forall i :: 0 <= i < |table| ==> table[i].1 in data
    ensures |r| == |table|
    ensures forall i :: 0 <= i < |table| ==> r[i] == (table[i].0, data[table[i].1])
  {
    seq(|table|, i requires 0 <= i < |table| => (table[i].0, data[table[i].1]))
  }

  /** The dictionary of the fields a renaming table takes from the form, then fixed ones. */
  function Assemble(data: map<string, Json>, table: seq<(string, string)>, constants: seq<(string, Json)>): map<string, Json>
    requires forall i :: 0 <= i < |table| ==> table[i].1 in data
  {
    Build(Copied(data, table) + constants)
  }

  /** The names of two lists of entries joined are the names of each. */
  lemma {:induction false} ConcatNames<V>(a: seq<(string, V)>, b: seq<(string, V)>)
    ensures Names(a + b) == Names(a) + Names(b)
  {
    forall x | x in Names(a + b) ensures x in Names(a) + Names(b) {
      var i :| 0 <= i < |a + b| && (a + b)[i].0 == x;
      if i < |a| { assert a[i] == (a + b)[i]; } else { assert b[i - |a|] == (a + b)[i]; }
    }
    forall x | x in Names(a) + Names(b) ensures x in Names(a + b) {
      if x in Names(a) {
        var i :| 0 <= i < |a| && a[i].0 == x;
        assert (a + b)[i] == a[i];
      } else {
        var i :| 0 <= i < |b| && b[i].0 == x;
        assert (a + b)[|a| + i] == b[i];
      }
    }
  }

  /** Two lists with distinct names, none shared, join into a list with distinct names. */
  lemma ConcatDistinct<V>(a: seq<(string, V)>, b: seq<(string, V)>)
    requires DistinctNames(a) && DistinctNames(b)
    requires forall i, j :: 0 <= i < |a| && 0 <= j < |b| ==> a[i].0 != b[j].0
    ensures DistinctNames(a + b)
  {
    forall i, j | 0 <= i < j < |a + b| ensures (a + b)[i].0 != (a + b)[j].0 {
      if j < |a| {
        assert (a + b)[i] == a[i] && (a + b)[j] == a[j];
      } else if i < |a| {
        assert (a + b)[i] == a[i] && (a + b)[j] == b[j - |a|];
      } else {
        assert (a + b)[i] == b[i - |a|] && (a + b)[j] == b[j - |a|];
      }
    }
  }

  /** The copied entries carry the table's field names. */
  lemma CopiedNames(data: map<string, Json>, table: seq<(string, string)>)
    requires forall i :: 0 <= i < |table| ==> table[i].1 in data
    ensures Names(Copied(data, table)) == Names(table)
    ensures DistinctNames(table) ==> DistinctNames(Copied(data, table))
  {
    var c := Copied(data, table);
    forall x | x in Names(c) ensures x in Names(table) {
      var i :| 0 <= i < |c| && c[i].0 == x;
      assert table[i].0 == x;
    }
    forall x | x in Names(table) ensures x in Names(c) {
      var i :| 0 <= i < |table| && table[i].0 == x;
      assert c[i].0 == x;
    }
  }

  /** With distinct field names, the assembled dictionary has exactly the fields of the two
      tables, each copied field holding its form field and each fixed field its value. */
  lemma AssembleLookup(data: map<string, Json>, table: seq<(string, string)>, constants: seq<(string, Json)>)
    requires forall i :: 0 <= i < |table| ==> table[i].1 in data
    requires DistinctNames(table) && DistinctNames(constants)
    requires forall i, j :: 0 <= i < |table| && 0 <= j < |constants| ==> table[i].0 != constants[j].0
    ensures Assemble(data, table, constants).Keys == Names(table) + Names(constants)
    ensures forall i :: 0 <= i < |table| ==> Assemble(data, table, constants)[table[i].0] == data[table[i].1]
    ensures forall i :: 0 <= i < |constants| ==> Assemble(data, table, constants)[constants[i].0] == constants[i].1
  {
    var c := Copied(data, table);
    var n := |table|;
    CopiedNames(data, table);
    ConcatDistinct(c, constants);
    ConcatNames(c, constants);
    BuildLookup(c + constants);
    forall i | 0 <= i < n ensures Build(c + constants)[table[i].0] == data[table[i].1] {
      assert (c + constants)[i] == (table[i].0, data[table[i].1]);
    }
    forall i | 0 <= i < |constants| ensures Build(c + constants)[constants[i].0] == constants[i].1 {
      assert (c + constants)[n + i] == constants[i];
    }
  }

  lemma DataSourcesKnown()
    ensures forall i :: 0 <= i < |DataFieldMap| ==> DataFieldMap[i].1 in DataSourceKeys
  {
  }

  lemma DataNamesDistinct()
    ensures DistinctNames(DataFieldMap) && DistinctNames(DataConstants)
  {
  }

  lemma DataNamesDisjoint()
    ensures forall i, j :: 0 <= i < |DataFieldMap| && 0 <= j < |DataConstants| ==> DataFieldMap[i].0 != DataConstants[j].0
  {
  }

  /** The `data` parameter, before `json.dumps`: the copied fields, then the fixed ones. */
  function DataParam(data: map<string, Json>): (d: map<string, Json>)
    requires DataSourceKeys <= data.Keys
    ensures d.Keys == Names(DataFieldMap) + Names(DataConstants)
    ensures forall i :: 0 <= i < |DataFieldMap| ==> d[DataFieldMap[i].0] == data[DataFieldMap[i].1]
    ensures forall i :: 0 <= i < |DataConstants| ==> d[DataConstants[i].0] == DataConstants[i].1
  {
    DataSourcesKnown();
    DataNamesDistinct();
    DataNamesDisjoint();
    AssembleLookup(data, DataFieldMap, DataConstants);
    Assemble(data, DataFieldMap, DataConstants)
  }

  /** The token after an `accounts.initRegistration` reply: replaced by `regToken` only
      when the reply is ok and its body is an object that has one. */
  function NextToken(token: Option<Json>, reply: Reply): Option<Json>
  {
    if Succeeded(reply) && reply.body.Some? && reply.body.value.JObject? && "regToken" in reply.body.value.fields
    then Some(reply.body.value.fields["regToken"])
    else token
  }

  /** How `set_registration_token` ends for a reply: False on an exception or a response
      that is not ok; on an ok response an exception propagates when the body is not JSON
      (logging it calls `r.json()`) or has no `regToken`; True otherwise. */
  function InitExit(reply: Reply): (e: Exit<bool>)
    ensures e == Return(true) <==> NextToken(None, reply).Some?
    ensures !Succeeded(reply) ==> e == Return(false)
  {
    if !Succeeded(reply) then Return(false)
    else if reply.body.None? then Raise("JSONDecodeError")
    else if !reply.body.value.JObject? then Raise("TypeError")
    else if "regToken" !in reply.body.value.fields then Raise("KeyError: 'regToken'")
    else Return(true)
  }

  /** The token after a series of `set_registration_token` calls. */
  function TokenAfter(token: Option<Json>, replies: seq<Reply>): Option<Json>
  {
    if replies == [] then token else NextToken(TokenAfter(token, replies[..|replies| - 1]), replies[|replies| - 1])
  }

  /** The index of the last reply for which `set_registration_token` returns True. */
  function LastSuccess(replies: seq<Reply>): (r: Option<nat>)
    ensures r.Some? ==> r.value < |replies| && InitExit(replies[r.value]) == Return(true)
    ensures r.Some? ==> forall j :: r.value < j < |replies| ==> InitExit(replies[j]) != Return(true)
    ensures r.None? ==> forall j :: 0 <= j < |replies| ==> InitExit(replies[j]) != Return(true)
  {
    if replies == [] then None
    else if InitExit(replies[|replies| - 1]) == Return(true) then Some(|replies| - 1)
    else LastSuccess(replies[..|replies| - 1])
  }

  /** The token held after a series of calls is the one from the last call that
      returned True, or the starting token when none did. */
  lemma {:induction false} TokenIsFromLastSuccess(token: Option<Json>, replies: seq<Reply>)
    ensures LastSuccess(replies).None? ==> TokenAfter(token, replies) == token
    ensures LastSuccess(replies).Some? ==>
      TokenAfter(token, replies) == NextToken(None, replies[LastSuccess(replies).value])
  {
    if replies != [] {
      var n := |replies| - 1;
      var prefix := replies[..n];
      TokenIsFromLastSuccess(token, prefix);
      if InitExit(replies[n]) != Return(true) {
        assert LastSuccess(replies) == LastSuccess(prefix);
        if LastSuccess(prefix).Some? {
          assert prefix[LastSuccess(prefix).value] == replies[LastSuccess(prefix).value];
        }
      }
    }
  }

  /** A POST whose parameters go in the URL query string: the endpoint and its parameters. */
  datatype FormPost = FormPost(endpoint: string, params: map<string, Json>)

  function TokenParam(token: Option<Json>): Json
  {
    match token
    case Some(t) => t
    case None => JNull
  }

  class Epsilon {
    const apiRegion: string
    const apiKey: string
    var registrationToken: Option<Json>
    var dataParam: Option<map<string, Json>>
    var profileParam: Option<map<string, Json>>

    constructor (apiRegion: string, apiKey: string)
      ensures this.apiRegion == apiRegion && this.apiKey == apiKey
      ensures registrationToken == None && dataParam == None && profileParam == None
    {
      this.apiRegion := apiRegion;
      this.apiKey := apiKey;
      registrationToken := None;
      dataParam := None;
      profileParam := None;
    }

    /** `set_registration_token`: the token changes only on a successful call. */
    method SetRegistrationToken(reply: Reply) returns (exit: Exit<bool>, post: FormPost)
      modifies this`registrationToken
      ensures post == FormPost(apiRegion + "/accounts.initRegistration",
                               map["isLite" := JBool(true), "apiKey" := JStr(apiKey)])
      ensures exit == InitExit(reply)
      ensures registrationToken == NextToken(old(registrationToken), reply)
    {
      post := FormPost(apiRegion + "/accounts.initRegistration",
                       map["isLite" := JBool(true), "apiKey" := JStr(apiKey)]);
      if reply.Raised? {
        return Return(false), post;
      }
      if !StatusOk(reply.status) {
        return Return(false), post;
      }
      if reply.body.None? {
        return Raise("JSONDecodeError"), post;
      }
      var resp := reply.body.value;
      if !resp.JObject? {
        return Raise("TypeError"), post;
      }
      if "regToken" !in resp.fields {
        return Raise("KeyError: 'regToken'"), post;
      }
      registrationToken := Some(resp.fields["regToken"]);
      exit := Return(true);
    }

    method BuildProfileParam(data: map<string, Json>)
      requires ProfileSourceKeys <= data.Keys
      modifies this`profileParam
      ensures profileParam == Some(Profile(data))
    {
      profileParam := Some(Profile(data));
    }

    method BuildDataParam(data: map<string, Json>)
      requires DataSourceKeys <= data.Keys
      modifies this`dataParam
      ensures dataParam == Some(DataParam(data))
    {
      dataParam := Some(DataParam(data));
    }

    /** `post_registration`: rebuilds both parameters, sends them with the current token;
        False on an exception or a response that is not ok, True on an ok response whose
        body is JSON (logging it calls `r.json()`, which raises otherwise). */
    method PostRegistration(data: map<string, Json>, reply: Reply) returns (exit: Exit<bool>, post: FormPost)
      requires ProfileSourceKeys <= data.Keys && DataSourceKeys <= data.Keys
      modifies this`profileParam, this`dataParam
      ensures profileParam == Some(Profile(data)) && dataParam == Some(DataParam(data))
      ensures post == FormPost(apiRegion + "/accounts.setAccountInfo",
        map["regToken" := TokenParam(registrationToken),
            "profile" := JObject(Profile(data)),
            "data" := JObject(DataParam(data))])
      ensures !Succeeded(reply) ==> exit == Return(false)
      ensures Succeeded(reply) ==> exit == (if reply.body.Some? then Return(true) else Raise("JSONDecodeError"))
    {
      BuildProfileParam(data);
      BuildDataParam(data);
      post := FormPost(apiRegion + "/accounts.setAccountInfo",
        map["regToken" := TokenParam(registrationToken),
            "profile" := JObject(profileParam.value),
            "data" := JObject(dataParam.value)]);
      if reply.Raised? {
        return Return(false), post;
      }
      if !StatusOk(reply.status) {
        return Return(false), post;
      }
      if reply.body.None? {
        return Raise("JSONDecodeError"), post;
      }
      exit := Return(true);
    }
  }
}
