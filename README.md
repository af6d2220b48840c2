# Pathways REST server: request translation

This project models the route handlers of `server.js`, a small REST server. The server runs on the Fastify web framework and stores its data in MySQL through the `mysql2` driver. It handles:

- reads of the `pathways` table and of the `vw_register_results` view;
- inserts, updates and deletes of pathways;
- deletes through the stored procedure `sp_deleteRow`;
- a catch-all answer for unmatched routes.

Only the positional form of query parameterization is modelled. That form is the one selected by `ObjectQueriesToggle = false`: each `?` in the SQL text is filled, left to right, from an array of values.

Every handler is split into two steps:

1. **Planning** (`Server.Plan...`). The handler reads the path parameters and the body. It then either answers at once, with no query sent (`Answer`), or builds the SQL text and its parameter array (`Send`). Each method follows its handler step by step: the SQL string grows by `+=`, the data array by `push`, and the response object's fields are overwritten in place.
2. **Responding** (`Server.Respond...`). The store's `(errQuery, result)` reply is turned into the response envelope `{error, statusCode, rows | id}`. The HTTP status sent is the envelope's own `statusCode`.

The modules are:

- `Values`: JSON values, JavaScript truthiness, and destructuring with defaults.
- `Sql`: a parameterized statement. `Segments` cuts SQL text at its placeholders, so segment `i` is the text just before parameter `i`. `Join` is its inverse, proved in both directions. There is also one more segment than there are placeholders.
- `Statements`: each SQL statement the handlers send, with its segments.
- `Responses`: store replies, the envelope and the HTTP reply.
- `Server`: the handlers.

Several store callbacks are identical apart from the id they echo and their log output, so each group is one method:

- the two GET callbacks (server.js:86-105, 148-167) are `RespondRead`;
- the two DELETE callbacks and the PUT callback (server.js:240-262, 302-324, 387-409) are `RespondWrite`, which takes the echoed id (`PathwayID` or `AlumID`) as its `id` parameter.

Successful DELETE and PUT requests answer 201, because every write envelope starts with `statusCode: 201` and is never changed on success. The status-code table in the header comment (server.js:1-15) says 200 and 204 for these. The model follows the code.

## Model

| member | source | states |
|---|---|---|
| Sql.Segments | server.js:61 | every piece of a statement is free of placeholders, and there is at least one piece |
| Sql.JoinSegments | server.js:61 | putting a `?` between the segments of a text gives the text back |
| Sql.SegmentsJoin | server.js:61 | cutting a text built from placeholder-free pieces gives exactly those pieces back |
| Sql.SegmentsCount | server.js:61 | a text has one more segment than placeholders, so the parameters and the gaps between segments pair up one to one |
| Sql.StatementShape | server.js:61 | a text joined from placeholder-free pieces has those pieces as its segments and one placeholder fewer than pieces |
| Statements.SelectByIdStatement | server.js:59-66 | the single-pathway SELECT has one placeholder, the value compared with `PathwayID` |
| Statements.SelectAllStatement | server.js:59-74 | the whole-collection SELECT, ordered by `PathwayName`, has no placeholder |
| Statements.ResultsByIdStatement | server.js:121-128 | the filtered registration-results SELECT has one placeholder, the value compared with `RegisterID` |
| Statements.ResultsAllStatement | server.js:121-136 | the registration-results SELECT ordered by `Member_Name` has no placeholder |
| Statements.InsertPathwayStatement | server.js:181 | the INSERT has two placeholders, for `PathwayID` and then `PathwayName`, in the column list's order |
| Statements.DeleteByIdStatement | server.js:223 | the DELETE has one placeholder, the value compared with `PathwayID` |
| Statements.CallDeleteRowStatement | server.js:285 | the procedure call has one placeholder, its only argument |
| Statements.UpdateNameStatement | server.js:348-358 | the UPDATE has two placeholders: the new name, then the id the WHERE clause selects |
| Server.PlanGetPathways | server.js:50-76 | always sends a query with one parameter per placeholder: by id when the id is non-empty, with the id as the only parameter; otherwise the whole collection by name, with no parameter |
| Server.PlanRegistrationResults | server.js:112-138 | always sends an aligned query; an empty or missing `RegisterID` (the route has no path parameter, so always) gives the query ordered by `Member_Name` with no parameter; a non-empty one would give the filtered query with that id |
| Server.RespondRead | server.js:78-104 | the HTTP code is the envelope's status; 400 exactly when the store failed, with its error and no rows; 200 exactly when rows came back, carrying them; 204 exactly when none came back |
| Server.PlanCreatePathway | server.js:175-193 | always sends the INSERT, aligned, with the body's `PathwayID` and `PathwayName` as they are (`undefined` included) in column order |
| Server.RespondInsert | server.js:188-210 | the HTTP code is the envelope's status; 400 exactly when the store failed, with its error; 201 exactly on success, with the store's insert id as `id` |
| Server.PlanDeletePathway | server.js:217-273 | no query is sent exactly when the id is empty; the answer is then 405 "Delete entire collection not allowed" with HTTP code 405; otherwise the aligned DELETE with the id as its only parameter |
| Server.PlanDeleteAlum | server.js:279-335 | the same for `AlumID` and the call of `sp_deleteRow` |
| Server.PlanUpdatePathway | server.js:341-421 | a query is sent exactly when the id is non-empty and the body's name is truthy; an empty id gives 405 whatever the body holds; a falsy or missing name gives 400 "Data missing for update"; the UPDATE takes the name, then the id |
| Server.RespondWrite | server.js:240-262 | the HTTP code is the envelope's status; 400 exactly when the store failed; 201 with the requested id exactly when rows were affected; 404 with no id exactly when none were, a missing count included |
| Server.UnmatchedRouteHandler | server.js:426-436 | 404 "Unsupported request", sent with its own status code, with neither `rows` nor `id` |
| Server.CatchAll | server.js:438-450 | for every verb, 404 "Unsupported request" sent with its own status code, with neither `rows` nor `id` |

## Left out

- Routing. Matching a method and path (Fastify's router) and its trailing-slash rule for POST are framework behaviour. Each handler is given the parsed path parameters and body instead.
- The `ObjectQueriesToggle = true` branches. The constant is `false`, so those branches never run.
- The database. The connection, `connect` and `listen` (server.js:473-505) and the store's effects are not modelled. Store replies are inputs, and error objects are passed on without looking inside.
- Console output (`DO_DEBUG`, `DO_STATUS`). It does not change any reply.
- The `Content-Type` header. It is the same on every reply.
- The second `.send(response)` in the two GET handlers. It has no effect on what the client receives.
- A request with no body at all on POST or PUT. Destructuring `undefined` throws, and Fastify answers with its own error. Only bodies that are objects are modelled.
- The commented-out `/colors` handler (server.js:453-471). It is not code.
- The body of a 204 reply. Node sends no body with status 204, so the envelope `RespondRead` builds for it is handed to `send` but does not reach the client.
- Placeholder forms other than a lone `?`. The driver also reads `??` as an identifier placeholder; `Sql` treats every `?` as a value placeholder, which agrees with the driver on every statement the handlers send.
- Values. JSON arrays and objects are one opaque case, because no handler looks inside them. Numbers are real numbers, and JSON has no NaN.
