/** The contact table on DynamoDB: environment table selection, the item a new
    contact is stored as, the update of an existing contact, and the pass/fail
    results of the three SDK calls. */
module ContactTable {
  import opened Base

  /** A DynamoDB item: attribute name to value. */
  type Item = map<string, Json>

  /** The fields of the posted contact form the table stores. */
  const ContactFields: set<string> := {"name", "phone", "email", "message"}

  /** The attributes of a stored contact. */
  const ItemAttributes: set<string> := {"id", "name", "phone", "email", "message", "create_date", "edit_date"}

  /** DynamoDB reserved words that the update touches; they may only appear through an alias. */
  const ReservedWords: set<string> := {"name"}

  /** The key of the table: contacts are identified by e-mail address. */
  function ContactKey(data: map<string, Json>): (k: Item)
    requires "email" in data
    ensures k.Keys == {"email"} && k["email"] == data["email"]
  {
    map["email" := data["email"]]
  }

  /** The item `dynamo_put` writes, given the fresh uuid and `str(datetime.now())`. */
  function NewContactItem(data: map<string, Json>, id: string, createDate: string): (item: Item)
    requires ContactFields <= data.Keys
    ensures item.Keys == ItemAttributes
    ensures forall f :: f in ContactFields ==> item[f] == data[f]
    ensures item["id"] == JStr(id) && item["create_date"] == JStr(createDate)
    ensures item["edit_date"] == JNull
  {
    map[
      "id" := JStr(id),
      "name" := data["name"],
      "phone" := data["phone"],
      "email" := data["email"],
      "message" := data["message"],
      "create_date" := JStr(createDate),
      "edit_date" := JNull]
  }

  /** A `#name` placeholder of `ExpressionAttributeNames`. */
  predicate IsAlias(path: string)
  {
    |path| > 0 && path[0] == '#'
  }

  /** An `update_item` request: the key, the `SET` clauses of the update expression as
      (attribute path, value placeholder) pairs in order, and the two substitution maps. */
  datatype UpdateRequest = UpdateRequest(
    key: Item, assignments: seq<(string, string)>, values: map<string, Json>, names: map<string, string>)
  {
    /** Every placeholder and every `#` alias the expression uses is defined. */
    predicate Resolvable()
    {
      forall i :: 0 <= i < |assignments| ==>
        assignments[i].1 in values && (IsAlias(assignments[i].0) ==> assignments[i].0 in names)
    }

    /** The attribute a path denotes once `ExpressionAttributeNames` is applied. */
    function Resolve(path: string): string
    {
      if path in names then names[path] else path
    }

    /** The attributes the update writes, in expression order. */
    function Targets(): (t: seq<string>)
      ensures |t| == |assignments|
      ensures forall i :: 0 <= i < |t| ==> t[i] == Resolve(assignments[i].0)
    {
      seq(|assignments|, i requires 0 <= i < |assignments| => Resolve(assignments[i].0))
    }

    /** DynamoDB refuses an update expression that sets an attribute of the key. */
    predicate SetsKeyAttribute()
    {
      exists i :: 0 <= i < |assignments| && Resolve(assignments[i].0) in key
    }

    /** DynamoDB also refuses a value placeholder or a name alias that the expression
        does not use. */
    predicate UsesAllSubstitutions()
    {
      && (forall k :: k in values ==> exists i :: 0 <= i < |assignments| && assignments[i].1 == k)
      && (forall a :: a in names ==> exists i :: 0 <= i < |assignments| && assignments[i].0 == a)
    }

    /** The conditions above under which DynamoDB accepts the request. */
    predicate Acceptable()
    {
      Resolvable() && UsesAllSubstitutions() && !SetsKeyAttribute()
    }
  }

  /** The stored item after an accepted update: each assignment in turn. */
  function ApplyUpdate(item: Item, req: UpdateRequest): Item
    requires req.Resolvable()
  {
    ApplyFrom(item, req, 0)
  }

  function ApplyFrom(item: Item, req: UpdateRequest, i: nat): Item
    requires req.Resolvable() && i <= |req.assignments|
    decreases |req.assignments| - i
  {
    if i == |req.assignments| then item
    else ApplyFrom(item[req.Resolve(req.assignments[i].0) := req.values[req.assignments[i].1]], req, i + 1)
  }

  /** The update `dynamo_update_item` sends, exactly as written, given `str(datetime.now())`:
      the expression `set #contact_name=:n, phone=:p, email=:e, messsage=:m, edit_date=:d`. */
  function UpdateRequestAsWritten(data: map<string, Json>, editDate: string): (r: UpdateRequest)
    requires ContactFields <= data.Keys
    ensures r.Resolvable()
    ensures r.key == ContactKey(data)
    ensures r.Targets() == ["name", "phone", "email", "messsage", "edit_date"]
    ensures forall i :: 0 <= i < |r.assignments| ==> r.assignments[i].0 !in ReservedWords
  {
    var r := UpdateRequest(
      ContactKey(data),
      [("#contact_name", ":n"), ("phone", ":p"), ("email", ":e"), ("messsage", ":m"), ("edit_date", ":d")],
      map[":n" := data["name"], ":p" := data["phone"], ":e" := data["email"],
          ":m" := data["message"], ":d" := JStr(editDate)],
      map["#contact_name" := "name"]);
    assert r.Targets() == ["name", "phone", "email", "messsage", "edit_date"];
    r
  }

  /** As written, the update sets the key attribute `email`, which DynamoDB refuses. */
  lemma AsWrittenUpdateSetsKey(data: map<string, Json>, editDate: string)
    requires ContactFields <= data.Keys
    ensures UpdateRequestAsWritten(data, editDate).SetsKeyAttribute()
  {
    var r := UpdateRequestAsWritten(data, editDate);
    assert r.Resolve(r.assignments[2].0) == "email";
  }

  /** As written, the update writes a new attribute `messsage` and leaves the stored
      `message` as it was. */
  lemma AsWrittenUpdateMissesMessage(data: map<string, Json>, editDate: string, stored: Item)
    requires ContactFields <= data.Keys
    ensures var r := UpdateRequestAsWritten(data, editDate);
      "messsage" in r.Targets() && "message" !in r.Targets()
      && "messsage" in ApplyUpdate(stored, r) && ApplyUpdate(stored, r)["messsage"] == data["message"]
      && ("message" in stored ==> "message" in ApplyUpdate(stored, r) && ApplyUpdate(stored, r)["message"] == stored["message"])
  {
    var r := UpdateRequestAsWritten(data, editDate);
    assert r.Targets()[3] == "messsage";
    var s1 := stored["name" := data["name"]];
    var s2 := s1["phone" := data["phone"]];
    var s3 := s2["email" := data["email"]];
    var s4 := s3["messsage" := data["message"]];
    var s5 := s4["edit_date" := JStr(editDate)];
    assert ApplyFrom(s5, r, 5) == s5;
    assert ApplyFrom(s4, r, 4) == ApplyFrom(s5, r, 5);
    assert ApplyFrom(s3, r, 3) == ApplyFrom(s4, r, 4);
    assert ApplyFrom(s2, r, 2) == ApplyFrom(s3, r, 3);
    assert ApplyFrom(s1, r, 1) == ApplyFrom(s2, r, 2);
    assert ApplyFrom(stored, r, 0) == ApplyFrom(s1, r, 1);
  }

  /** The intended update, `set #contact_name=:n, phone=:p, message=:m, edit_date=:d`:
      the contact is found by its e-mail key and its other fields are overwritten,
      `name` through the `#contact_name` alias. */
  function UpdateRequestFor(data: map<string, Json>, editDate: string): (r: UpdateRequest)
    requires ContactFields <= data.Keys
    ensures r.Resolvable() && !r.SetsKeyAttribute()
    ensures r.key == ContactKey(data)
    ensures r.Targets() == ["name", "phone", "message", "edit_date"]
    ensures forall i :: 0 <= i < |r.assignments| ==> r.assignments[i].0 !in ReservedWords
  {
    var r := UpdateRequest(
      ContactKey(data),
      [("#contact_name", ":n"), ("phone", ":p"), ("message", ":m"), ("edit_date", ":d")],
      map[":n" := data["name"], ":p" := data["phone"], ":m" := data["message"], ":d" := JStr(editDate)],
      map["#contact_name" := "name"]);
    assert r.Targets() == ["name", "phone", "message", "edit_date"];
    r
  }

  /** Every value placeholder and name alias of the written update is used, so the key
      clause alone makes DynamoDB refuse it. */
  lemma AsWrittenUpdateRefused(data: map<string, Json>, editDate: string)
    requires ContactFields <= data.Keys
    ensures UpdateRequestAsWritten(data, editDate).UsesAllSubstitutions()
    ensures !UpdateRequestAsWritten(data, editDate).Acceptable()
  {
    var r := UpdateRequestAsWritten(data, editDate);
    assert r.assignments[0] == ("#contact_name", ":n") && r.assignments[1].1 == ":p";
    assert r.assignments[2].1 == ":e" && r.assignments[3].1 == ":m" && r.assignments[4].1 == ":d";
    AsWrittenUpdateSetsKey(data, editDate);
  }

  /** The intended update meets the three conditions of `Acceptable`: each placeholder
      and alias it uses is defined, each one defined is used, and no key attribute is set. */
  lemma IntendedUpdateAcceptable(data: map<string, Json>, editDate: string)
    requires ContactFields <= data.Keys
    ensures UpdateRequestFor(data, editDate).Acceptable()
  {
    var r := UpdateRequestFor(data, editDate);
    assert r.assignments[0] == ("#contact_name", ":n") && r.assignments[1].1 == ":p";
    assert r.assignments[2].1 == ":m" && r.assignments[3].1 == ":d";
  }

  /** Updating a contact that `dynamo_put` stored keeps its id, key and creation date,
      takes name, phone and message from the new data and stamps the edit date. */
  lemma UpdateOverwritesStoredContact(old_: map<string, Json>, new_: map<string, Json>,
                                      id: string, createDate: string, editDate: string)
    requires ContactFields <= old_.Keys && ContactFields <= new_.Keys
    requires old_["email"] == new_["email"]
    ensures var after := ApplyUpdate(NewContactItem(old_, id, createDate), UpdateRequestFor(new_, editDate));
      after.Keys == ItemAttributes
      && after["id"] == JStr(id) && after["email"] == old_["email"] && after["create_date"] == JStr(createDate)
      && after["name"] == new_["name"] && after["phone"] == new_["phone"] && after["message"] == new_["message"]
      && after["edit_date"] == JStr(editDate)
  {
    var stored := NewContactItem(old_, id, createDate);
    var r := UpdateRequestFor(new_, editDate);
    var s1 := stored["name" := new_["name"]];
    var s2 := s1["phone" := new_["phone"]];
    var s3 := s2["message" := new_["message"]];
    var s4 := s3["edit_date" := JStr(editDate)];
    assert ApplyFrom(s4, r, 4) == s4;
    assert ApplyFrom(s3, r, 3) == ApplyFrom(s4, r, 4);
    assert ApplyFrom(s2, r, 2) == ApplyFrom(s3, r, 3);
    assert ApplyFrom(s1, r, 1) == ApplyFrom(s2, r, 2);
    assert ApplyFrom(stored, r, 0) == ApplyFrom(s1, r, 1);
  }

  /** What `get_item` ended with: it raised, or it answered, with the stored item when
      the key matched one (DynamoDB leaves `Item` out of the response otherwise). */
  datatype GetReply = GetRaised | GetReplied(item: Option<Item>)

  /** One SDK call: the table it went to, what was sent (None when building the request
      raised a KeyError inside the `try`, so that nothing was sent), and what the
      wrapper returned. */
  datatype Call<Q, T> = Call(table: string, request: Option<Q>, result: T)

  /** The wrapper, with the two table names from the settings. */
  datatype Dynamo = Dynamo(prodTableName: string, stagingTableName: string)
  {
    /** `dynamo_get_active_table`. */
    function ActiveTable(useProduction: bool): (r: string)
      ensures useProduction ==> r == prodTableName
      ensures !useProduction ==> r == stagingTableName
    {
      if useProduction then prodTableName else stagingTableName
    }

    /** `dynamo_get` as written: `response["Item"]` raises KeyError for an unknown contact. */
    function GetAsWritten(data: map<string, Json>, useProduction: bool, reply: GetReply): (c: Call<Item, Exit<Option<Item>>>)
      ensures c.table == ActiveTable(useProduction)
      ensures "email" !in data ==> c.request == None && c.result == Return(None)
      ensures "email" in data ==> c.request == Some(ContactKey(data))
      ensures "email" in data && reply.GetRaised? ==> c.result == Return(None)
      ensures "email" in data && reply.GetReplied? && reply.item.Some? ==> c.result == Return(reply.item)
      ensures "email" in data && reply.GetReplied? && reply.item.None? ==> c.result.Raise?
    {
      if "email" !in data then Call(ActiveTable(useProduction), None, Return(None))
      else
        var result := match reply
          case GetRaised => Return(None)
          case GetReplied(Some(item)) => Return(Some(item))
          case GetReplied(None) => Raise("KeyError: 'Item'");
        Call(ActiveTable(useProduction), Some(ContactKey(data)), result)
    }

    /** `dynamo_get` as intended: None when the call raised or no contact has that
        e-mail address, so that the caller goes on to store one. */
    function Get(data: map<string, Json>, useProduction: bool, reply: GetReply): (c: Call<Item, Exit<Option<Item>>>)
      ensures c.table == ActiveTable(useProduction)
      ensures c.request.Some? <==> "email" in data
      ensures c.request.Some? ==> c.request.value == ContactKey(data)
      ensures c.result.Return?
      ensures c.result.value.Some? <==> "email" in data && reply.GetReplied? && reply.item.Some?
      ensures c.result.value.Some? ==> c.result.value == reply.item
    {
      if "email" !in data then Call(ActiveTable(useProduction), None, Return(None))
      else
        var result := match reply
          case GetRaised => None
          case GetReplied(item) => item;
        Call(ActiveTable(useProduction), Some(ContactKey(data)), Return(result))
    }

    /** `dynamo_put`: False when a form field is missing or `put_item` raised, True otherwise. */
    function Put(data: map<string, Json>, useProduction: bool, id: string, createDate: string, raised: bool): (c: Call<Item, bool>)
      ensures c.table == ActiveTable(useProduction)
      ensures c.request.Some? <==> ContactFields <= data.Keys
      ensures c.request.Some? ==> c.request.value == NewContactItem(data, id, createDate)
      ensures c.result <==> c.request.Some? && !raised
    {
      if ContactFields <= data.Keys then
        Call(ActiveTable(useProduction), Some(NewContactItem(data, id, createDate)), !raised)
      else
        Call(ActiveTable(useProduction), None, false)
    }

    /** `dynamo_update_item` as written: it sends `UpdateRequestAsWritten`; False when a
        form field is missing or `update_item` raised, True otherwise. DynamoDB refuses
        that request (`AsWrittenUpdateSetsKey`), so the call raises whenever it is sent. */
    function UpdateItemAsWritten(data: map<string, Json>, useProduction: bool, editDate: string, raised: bool): (c: Call<UpdateRequest, bool>)
      ensures c.table == ActiveTable(useProduction)
      ensures c.request.Some? <==> ContactFields <= data.Keys
      ensures c.request.Some? ==> c.request.value == UpdateRequestAsWritten(data, editDate)
      ensures c.result <==> c.request.Some? && !raised
    {
      if ContactFields <= data.Keys then
        Call(ActiveTable(useProduction), Some(UpdateRequestAsWritten(data, editDate)), !raised)
      else
        Call(ActiveTable(useProduction), None, false)
    }

    /** `dynamo_update_item` as intended: it sends `UpdateRequestFor`; False when a form
        field is missing or `update_item` raised, True otherwise. */
    function UpdateItem(data: map<string, Json>, useProduction: bool, editDate: string, raised: bool): (c: Call<UpdateRequest, bool>)
      ensures c.table == ActiveTable(useProduction)
      ensures c.request.Some? <==> ContactFields <= data.Keys
      ensures c.request.Some? ==> c.request.value == UpdateRequestFor(data, editDate)
      ensures c.result <==> c.request.Some? && !raised
    {
      if ContactFields <= data.Keys then
        Call(ActiveTable(useProduction), Some(UpdateRequestFor(data, editDate)), !raised)
      else
        Call(ActiveTable(useProduction), None, false)
    }
  }

  /** Whatever the reply, the intended get never raises, and it agrees with the written
      one wherever the written one returns. */
  lemma GetAgreesWhereAsWrittenReturns(d: Dynamo, data: map<string, Json>, useProduction: bool, reply: GetReply)
    ensures d.GetAsWritten(data, useProduction, reply).result.Return? ==>
      d.GetAsWritten(data, useProduction, reply) == d.Get(data, useProduction, reply)
  {
  }
}
