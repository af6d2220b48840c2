/**
 * The route handlers of the pathways REST server, with the positional
 * (non-object) form of query parameterization.
 *
 * Every handler works in two steps. Planning looks at the path parameters and
 * the body and either answers at once, with no query sent, or builds the SQL
 * text and its parameter list. Responding turns the store's reply into the
 * response envelope, whose `statusCode` is also the HTTP status sent.
 */
module Server {
  import opened Values
  import opened Sql
  import opened Responses
  import opened Statements

  /** The first step of a handler: answer without the store, or send a query. */
  datatype Plan = Answer(reply: HttpReply) | Send(query: Query)

  datatype Verb = Get | Post | Put | Delete

  const CollectionDeleteMessage := "Delete entire collection not allowed"
  const MissingUpdateMessage := "Data missing for update"
  const UnsupportedMessage := "Unsupported request"

  // ---------------------------------------------------------------------------
  // Planning
  //
  // A plan that sends a query names the statement and its parameter list; the
  // statement's lemma in `Statements` gives its segments, so parameter `i` is the
  // value that fills the placeholder after segment `i`.

  /** GET /pathways/:PathwayID?: one pathway by id, or all of them ordered by name. */
  method PlanGetPathways(params: map<string, string>) returns (plan: Plan)
    ensures plan.Send? && Aligned(plan.query)
    ensures var id := PathParam(params, "PathwayID");
      |id| > 0 ==> plan.query == Query(SelectById, [Text(id)])
    ensures |PathParam(params, "PathwayID")| == 0 ==> plan.query == Query(SelectAll, [])
  {
    var pathwayId := PathParam(params, "PathwayID");
    var data: seq<JsonValue> := [];
    var sql := "SELECT * FROM pathways";
    if |pathwayId| > 0 {
      sql := sql + " WHERE PathwayID = ?";
      data := data + [Text(pathwayId)];
      SelectByIdStatement();
    } else {
      sql := sql + " ORDER BY PathwayName";
      SelectAllStatement();
    }
    plan := Send(Query(sql, data));
  }

  /** GET /RegistrationResults. The route has no path parameter, so `RegisterID`
      reads as "" and only the unfiltered statement is ever planned. */
  method PlanRegistrationResults(params: map<string, string>) returns (plan: Plan)
    ensures plan.Send? && Aligned(plan.query)
    ensures |PathParam(params, "RegisterID")| == 0 ==> plan.query == Query(ResultsAll, [])
    ensures var id := PathParam(params, "RegisterID");
      |id| > 0 ==> plan.query == Query(ResultsById, [Text(id)])
  {
    var registerId := PathParam(params, "RegisterID");
    var data: seq<JsonValue> := [];
    var sql := "SELECT * FROM vw_register_results";
    if |registerId| > 0 {
      sql := sql + " WHERE RegisterID = ?";
      data := data + [Text(registerId)];
      ResultsByIdStatement();
    } else {
      sql := sql + " ORDER BY Member_Name";
      ResultsAllStatement();
    }
    plan := Send(Query(sql, data));
  }

  /** POST /pathways/ with body `{PathwayID, PathwayName}`. Both fields are passed
      on as they are, `undefined` included, in the order of the column list; the
      statement is always sent. */
  method PlanCreatePathway(body: map<string, JsonValue>) returns (plan: Plan)
    ensures plan.Send? && Aligned(plan.query)
    ensures plan.query == Query(InsertPathway, [BodyField(body, "PathwayID"), BodyField(body, "PathwayName")])
  {
    var pathwayId := BodyField(body, "PathwayID");
    var pathwayName := BodyField(body, "PathwayName");
    var sql := InsertPathway;
    var data := [pathwayId, pathwayName];
    InsertPathwayStatement();
    plan := Send(Query(sql, data));
  }

  /** DELETE /pathways/:PathwayID?. Deleting the whole collection is refused with 405
      and no query. */
  method PlanDeletePathway(params: map<string, string>) returns (plan: Plan)
    ensures plan.Answer? <==> |PathParam(params, "PathwayID")| == 0
    ensures plan.Answer? ==> Coherent(plan.reply)
    ensures plan.Answer? ==>
      plan.reply == HttpReply(405, Envelope(Message(CollectionDeleteMessage), 405, Id(Text(""))))
    ensures plan.Send? ==>
      Aligned(plan.query) && plan.query == Query(DeleteById, [Text(PathParam(params, "PathwayID"))])
  {
    var pathwayId := PathParam(params, "PathwayID");
    var sql := DeleteById;
    var data := [Text(pathwayId)];
    var response := Envelope(NoError, 201, Id(Text("")));
    if |pathwayId| > 0 {
      DeleteByIdStatement();
      plan := Send(Query(sql, data));
    } else {
      response := response.(statusCode := 405, error := Message(CollectionDeleteMessage));
      plan := Answer(Transmit(response));
    }
  }

  /** DELETE /sp/:AlumID?, through the stored procedure `sp_deleteRow`. An empty id
      is refused with 405 and no query. */
  method PlanDeleteAlum(params: map<string, string>) returns (plan: Plan)
    ensures plan.Answer? <==> |PathParam(params, "AlumID")| == 0
    ensures plan.Answer? ==> Coherent(plan.reply)
    ensures plan.Answer? ==>
      plan.reply == HttpReply(405, Envelope(Message(CollectionDeleteMessage), 405, Id(Text(""))))
    ensures plan.Send? ==>
      Aligned(plan.query) && plan.query == Query(CallDeleteRow, [Text(PathParam(params, "AlumID"))])
  {
    var alumId := PathParam(params, "AlumID");
    var sql := CallDeleteRow;
    var data := [Text(alumId)];
    var response := Envelope(NoError, 201, Id(Text("")));
    if |alumId| > 0 {
      CallDeleteRowStatement();
      plan := Send(Query(sql, data));
    } else {
      response := response.(statusCode := 405, error := Message(CollectionDeleteMessage));
      plan := Answer(Transmit(response));
    }
  }

  /** PUT /pathways/:PathwayID? with body `{PathwayName}`. A query is sent only for
      an item id together with a truthy name; an empty id is refused with 405
      whatever the body holds, a falsy or absent name with 400. */
  method PlanUpdatePathway(params: map<string, string>, body: map<string, JsonValue>) returns (plan: Plan)
    ensures plan.Send? <==>
      |PathParam(params, "PathwayID")| > 0 && Truthy(BodyField(body, "PathwayName"))
    ensures plan.Answer? ==> Coherent(plan.reply)
    ensures |PathParam(params, "PathwayID")| == 0 ==>
      plan == Answer(HttpReply(405, Envelope(Message(CollectionDeleteMessage), 405, Id(Text("")))))
    ensures |PathParam(params, "PathwayID")| > 0 && !Truthy(BodyField(body, "PathwayName")) ==>
      plan == Answer(HttpReply(400, Envelope(Message(MissingUpdateMessage), 400, Id(Text("")))))
    ensures plan.Send? ==>
      && Aligned(plan.query)
      && plan.query == Query(UpdateName, [BodyField(body, "PathwayName"), Text(PathParam(params, "PathwayID"))])
  {
    var pathwayId := PathParam(params, "PathwayID");
    var pathwayName := BodyField(body, "PathwayName");
    var sql := "UPDATE pathways SET ";
    var setSql := "";
    var data: seq<JsonValue> := [];
    if Truthy(pathwayName) {
      setSql := "PathwayName = ?";
      data := data + [pathwayName];
    }
    if |setSql| > 0 && |pathwayId| > 0 {
      setSql := setSql + " WHERE PathwayID = ?";
      data := data + [Text(pathwayId)];
    }
    var response := Envelope(NoError, 201, Id(Text("")));
    if |pathwayId| > 0 {
      if |setSql| == 0 || |data| == 0 {
        response := response.(statusCode := 400, error := Message(MissingUpdateMessage));
        plan := Answer(Transmit(response));
      } else {
        sql := sql + setSql;
        UpdateNameStatement();
        plan := Send(Query(sql, data));
      }
    } else {
      response := response.(statusCode := 405, error := Message(CollectionDeleteMessage));
      plan := Answer(Transmit(response));
    }
  }

  // ---------------------------------------------------------------------------
  // Responding

  /** The query callback of both GET routes: an error gives 400, rows give 200 with
      the rows, no rows give 204 with none. */
  method RespondRead(reply: StoreReply<seq<Row>>) returns (out: HttpReply)
    ensures Coherent(out) && out.body.payload.Rows?
    ensures out.code == 400 <==> reply.Failed?
    ensures out.code == 200 <==> reply.Succeeded? && |reply.result| > 0
    ensures out.code == 204 <==> reply.Succeeded? && |reply.result| == 0
    ensures reply.Failed? ==> out.body == Envelope(StoreFailure(reply.error), 400, Rows([]))
    ensures reply.Succeeded? ==> out.body.error == NoError && out.body.payload.rows == reply.result
  {
    var response := Envelope(NoError, 200, Rows([]));
    match reply {
      case Failed(errQuery) =>
        response := response.(error := StoreFailure(errQuery), statusCode := 400);
      case Succeeded(rows) =>
        if |rows| > 0 {
          response := response.(payload := Rows(rows));
        } else {
          response := response.(statusCode := 204);
        }
    }
    out := Transmit(response);
  }

  /** The query callback of POST: an error gives 400, otherwise the status stays 201
      and `id` is the store's `insertId`. */
  method RespondInsert(reply: StoreReply<Header>) returns (out: HttpReply)
    ensures Coherent(out)
    ensures out.code == 400 <==> reply.Failed?
    ensures out.code == 201 <==> reply.Succeeded?
    ensures reply.Failed? ==> out.body == Envelope(StoreFailure(reply.error), 400, Id(Text("")))
    ensures reply.Succeeded? ==>
      out.body == Envelope(NoError, 201, Id(Number(reply.result.insertId as real)))
  {
    var response := Envelope(NoError, 201, Id(Text("")));
    match reply {
      case Failed(errQuery) =>
        response := response.(error := StoreFailure(errQuery), statusCode := 400);
      case Succeeded(result) =>
        response := response.(payload := Id(Number(result.insertId as real)));
    }
    out := Transmit(response);
  }

  /** The query callback shared by DELETE /pathways, DELETE /sp and PUT /pathways,
      for the item `id` the request named: an error gives 400, affected rows give 201
      with the requested id, none (or a missing count) gives 404 with no id. */
  method RespondWrite(id: string, reply: StoreReply<Header>) returns (out: HttpReply)
    ensures Coherent(out)
    ensures out.code == 400 <==> reply.Failed?
    ensures out.code == 201 <==> reply.Succeeded? && AffectedRows(reply.result) > 0
    ensures out.code == 404 <==> reply.Succeeded? && AffectedRows(reply.result) == 0
    ensures reply.Failed? ==> out.body == Envelope(StoreFailure(reply.error), 400, Id(Text("")))
    ensures out.code == 201 ==> out.body == Envelope(NoError, 201, Id(Text(id)))
    ensures out.code == 404 ==> out.body == Envelope(NoError, 404, Id(Text("")))
  {
    var response := Envelope(NoError, 201, Id(Text("")));
    match reply {
      case Failed(errQuery) =>
        response := response.(error := StoreFailure(errQuery), statusCode := 400);
      case Succeeded(result) =>
        var affectedRows := AffectedRows(result);
        if affectedRows > 0 {
          response := response.(payload := Id(Text(id)));
        } else {
          response := response.(statusCode := 404);
        }
    }
    out := Transmit(response);
  }

  // ---------------------------------------------------------------------------
  // Unmatched routes

  /** The envelope for any method and path no route matches: 404, "Unsupported
      request", and neither `rows` nor `id`. */
  function UnmatchedRouteHandler(): (out: HttpReply)
    ensures Coherent(out) && out.code == 404
    ensures out.body.error == Message(UnsupportedMessage) && out.body.payload == Absent
  {
    Transmit(Envelope(Message(UnsupportedMessage), 404, Absent))
  }

  /** The catch-all route registered for each of GET, POST, DELETE and PUT: whatever
      the verb, 404 "Unsupported request" with neither `rows` nor `id`. */
  function CatchAll(verb: Verb): (out: HttpReply)
    ensures Coherent(out) && out.code == 404
    ensures out.body == Envelope(Message(UnsupportedMessage), 404, Absent)
  {
    UnmatchedRouteHandler()
  }
}
