/** What the handler promises, stated over dict-shaped bodies and replies. */
module InteractionProperties {
  import opened Wrappers
  import opened Json
  import opened Python
  import opened Handler

  /** The code values this handler's decision distinguishes, 1 and 2, compare alike. */
  predicate SameCode(x: Json, y: Json) {
    EqualsInt(x, 1) == EqualsInt(y, 1) && EqualsInt(x, 2) == EqualsInt(y, 2)
  }

  /** A ping gets `{"type": 1}` and no `data`, whatever else the body holds. */
  lemma PingYieldsPong(fields: Fields, t: Json)
    requires DistinctKeys(fields) && ("type", t) in fields && EqualsInt(t, 1)
    ensures Interactions(JObject(fields)) == Ok(JObject([("type", JInt(1))]))
    ensures !HasKey(Interactions(JObject(fields)).value.fields, "data")
  {
    GetMember(fields, "type", t);
  }

  /** `/test` gets a type-4 message with the success text. */
  lemma TestCommandSucceeds(fields: Fields, t: Json, data: Fields)
    requires DistinctKeys(fields) && ("type", t) in fields && EqualsInt(t, 2)
    requires ("data", JObject(data)) in fields
    requires DistinctKeys(data) && ("name", JString("test")) in data
    ensures Interactions(JObject(fields)) ==
      Ok(JObject([("type", JInt(4)), ("data", JObject([("content", JString(TestReply))]))]))
  {
    GetMember(fields, "type", t);
    GetMember(fields, "data", JObject(data));
    GetMember(data, "name", JString("test"));
  }

  /** Any command name other than exactly "test" gets the fallback message. */
  lemma OtherNameFallsBack(fields: Fields, t: Json, data: Fields, name: Json)
    requires DistinctKeys(fields) && ("type", t) in fields && EqualsInt(t, 2)
    requires ("data", JObject(data)) in fields
    requires DistinctKeys(data) && ("name", name) in data && name != JString("test")
    ensures Interactions(JObject(fields)) ==
      Ok(JObject([("type", JInt(4)), ("data", JObject([("content", JString(UnsupportedReply))]))]))
  {
    GetMember(fields, "type", t);
    GetMember(fields, "data", JObject(data));
    GetMember(data, "name", name);
  }

  /** A type that is neither 1 nor 2 gets the fallback message; `data` is not needed. */
  lemma OtherTypeFallsBack(fields: Fields, t: Json)
    requires DistinctKeys(fields) && ("type", t) in fields
    requires !EqualsInt(t, 1) && !EqualsInt(t, 2)
    ensures Interactions(JObject(fields)) ==
      Ok(JObject([("type", JInt(4)), ("data", JObject([("content", JString(UnsupportedReply))]))]))
  {
    GetMember(fields, "type", t);
  }

  /**
   * Every reply is one of three dicts, and it carries `data` exactly when
   * its type is 4.
   */
  lemma ReplyShape(body: Json)
    ensures Interactions(body).Ok? ==>
      Interactions(body).value == JObject([("type", JInt(1))]) ||
      Interactions(body).value ==
        JObject([("type", JInt(4)), ("data", JObject([("content", JString(TestReply))]))]) ||
      Interactions(body).value ==
        JObject([("type", JInt(4)), ("data", JObject([("content", JString(UnsupportedReply))]))])
    ensures Interactions(body).Ok? ==>
      var reply := Interactions(body).value;
      reply.JObject? && Valid(reply) &&
      (HasKey(reply.fields, "data") <==> Get(reply.fields, "type") == Some(JInt(4)))
  {
  }

  /** A dict without `type` raises KeyError('type'). */
  lemma MissingTypeIsKeyError(fields: Fields)
    requires !HasKey(fields, "type")
    ensures Interactions(JObject(fields)) == Err(KeyError("type"))
  {
  }

  /** A body that is not a dict cannot be subscripted with "type". */
  lemma NonDictBodyIsTypeError(body: Json)
    requires !body.JObject?
    ensures Interactions(body) == Err(TypeError)
  {
  }

  /** A command without `data` raises KeyError('data'). */
  lemma CommandWithoutDataIsKeyError(fields: Fields, t: Json)
    requires DistinctKeys(fields) && ("type", t) in fields && EqualsInt(t, 2)
    requires !HasKey(fields, "data")
    ensures Interactions(JObject(fields)) == Err(KeyError("data"))
  {
    GetMember(fields, "type", t);
  }

  /**
   * A command whose `data` is not a dict raises TypeError; one whose `data`
   * has no `name` raises KeyError('name').
   */
  lemma CommandDataErrors(fields: Fields, t: Json, d: Json)
    requires DistinctKeys(fields) && ("type", t) in fields && EqualsInt(t, 2)
    requires ("data", d) in fields
    ensures !d.JObject? ==> Interactions(JObject(fields)) == Err(TypeError)
    ensures d.JObject? && !HasKey(d.fields, "name") ==>
      Interactions(JObject(fields)) == Err(KeyError("name"))
  {
    GetMember(fields, "type", t);
    GetMember(fields, "data", d);
  }

  /**
   * Those are the only errors: a dict body raises exactly when it has no
   * `type`, or it is a command whose `data.name` cannot be read.
   */
  lemma ErrorsExactly(fields: Fields)
    ensures Interactions(JObject(fields)).Err? <==>
      match Get(fields, "type")
      case None => true
      case Some(t) => EqualsInt(t, 2) && !NameReadable(fields)
  {
  }

  /** Unless the body is a command, its `data` field is never read: adding or dropping it changes nothing. */
  lemma {:induction false} DataUnreadUnlessCommand(pre: Fields, d: Json, post: Fields)
    requires forall t :: ("type", t) in pre + post ==> !EqualsInt(t, 2)
    ensures Interactions(JObject(pre + [("data", d)] + post)) == Interactions(JObject(pre + post))
  {
    GetSkip(pre, "data", d, post, "type");
  }

  /** Fields other than `type` and `data` (id, token, member, ...) never affect the reply. */
  lemma {:induction false} ExtraFieldsIgnored(pre: Fields, k: string, v: Json, post: Fields)
    requires k != "type" && k != "data"
    ensures Interactions(JObject(pre + [(k, v)] + post)) == Interactions(JObject(pre + post))
  {
    var a, b := JObject(pre + [(k, v)] + post), JObject(pre + post);
    GetSkip(pre, k, v, post, "type");
    GetSkip(pre, k, v, post, "data");
    assert Subscript(a, "type") == Subscript(b, "type");
    assert CommandName(a) == CommandName(b);
    DependsOnlyOnTypeAndName(a, b);
  }

  /** Fields of `data` other than `name` (id, options, ...) never affect the reply. */
  lemma {:induction false} ExtraDataFieldsIgnored(
    pre: Fields, dpre: Fields, k: string, v: Json, dpost: Fields, post: Fields)
    requires !HasKey(pre, "data") && k != "name"
    ensures
      Interactions(JObject(pre + [("data", JObject(dpre + [(k, v)] + dpost))] + post)) ==
      Interactions(JObject(pre + [("data", JObject(dpre + dpost))] + post))
  {
    var x, y := JObject(dpre + [(k, v)] + dpost), JObject(dpre + dpost);
    var a, b := pre + [("data", x)] + post, pre + [("data", y)] + post;
    GetSkip(pre, "data", x, post, "type");
    GetSkip(pre, "data", y, post, "type");
    assert Subscript(JObject(a), "type") == Subscript(JObject(b), "type");
    GetAt(pre, "data", x, post);
    GetAt(pre, "data", y, post);
    GetSkip(dpre, k, v, dpost, "name");
    assert CommandName(JObject(a)) == CommandName(JObject(b));
    DependsOnlyOnTypeAndName(JObject(a), JObject(b));
  }

  /**
   * The reply depends only on `type` (up to Python equality with 1 and 2)
   * and, for commands, on `data.name`.
   */
  lemma DependsOnlyOnTypeAndName(a: Json, b: Json)
    requires Subscript(a, "type").Err? ==> Subscript(b, "type") == Subscript(a, "type")
    requires Subscript(a, "type").Ok? ==>
      Subscript(b, "type").Ok? && SameCode(Subscript(a, "type").value, Subscript(b, "type").value)
    requires Subscript(a, "type").Ok? && EqualsInt(Subscript(a, "type").value, 2) ==>
      CommandName(a) == CommandName(b)
    ensures Interactions(a) == Interactions(b)
  {
  }

  /** An encoded reply reads back as exactly the response it came from, and nothing else reads back. */
  lemma {:induction false} DecodeReplyInverse(j: Json, r: Response)
    ensures DecodeReply(j) == Some(r) <==> j == Encode(r)
  {
    if DecodeReply(j) == Some(r) && r.Message? {
      assert j.fields == [j.fields[0], j.fields[1]];
      assert j.fields[1].1.fields == [j.fields[1].1.fields[0]];
    }
  }

  /** Concrete pings: Python's True == 1 and 1.0 == 1, but "1" != 1. */
  lemma PingExamples()
    ensures Interactions(JObject([("type", JInt(1))])) == Ok(JObject([("type", JInt(1))]))
    ensures Dispatch(JObject([("type", JBool(true))])) == Ok(Pong)
    ensures Dispatch(JObject([("type", JFloat(1.0))])) == Ok(Pong)
    ensures Dispatch(JObject([("type", JString("1"))])) == Ok(Message(UnsupportedReply))
    ensures Dispatch(JObject([("type", JInt(3))])) == Ok(Message(UnsupportedReply))
  {
  }

  /** Concrete commands: only the exact name "test" succeeds. */
  lemma CommandExamples()
    ensures Dispatch(JObject([("type", JInt(2)), ("data", JObject([("name", JString("test"))]))]))
      == Ok(Message(TestReply))
    ensures Dispatch(JObject([("type", JInt(2)), ("data", JObject([("name", JString("Test"))]))]))
      == Ok(Message(UnsupportedReply))
    ensures Dispatch(JObject([("type", JInt(2)), ("data", JObject([("name", JString(""))]))]))
      == Ok(Message(UnsupportedReply))
  {
  }

  /** Concrete bodies that make the handler raise. */
  lemma ErrorExamples()
    ensures Dispatch(JObject([])) == Err(KeyError("type"))
    ensures Dispatch(JObject([("type", JInt(2))])) == Err(KeyError("data"))
    ensures Dispatch(JObject([("type", JInt(2)), ("data", JNull)])) == Err(TypeError)
    ensures Dispatch(JObject([("type", JInt(2)), ("data", JObject([]))])) == Err(KeyError("name"))
  {
  }
}
