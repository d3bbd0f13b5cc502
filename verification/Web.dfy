/**
  The request pipeline: error classes, responses, middlewares and routes.

  Handlers are values that middlewares wrap, so a handler is a function here, from the request and
  the state it shares with the layers around it (response, per-request values, log) to that state
  afterwards and an error.
*/
module Web {
  import opened Prelude

  // ---------------------------------------------------------------- errors

  datatype EndUserError = EndUserError(message: string, status: int, fields: map<string, string>)

  /** ExternalError has no Unwrap, so a chain ends at it. */
  datatype Error =
    | Plain(message: string)
    | EndUser(eue: EndUserError)
    | FieldErrors(fields: seq<(string, string)>)
    | External(inner: Error)
    | Wrapped(message: string, inner: Error)

  function Chain(e: Error): seq<Error> {
    match e
    case Wrapped(_, inner) => [e] + Chain(inner)
    case _ => [e]
  }

  /** errors.As for each class: the first error of the class in the chain. */
  function AsEndUser(e: Error): Option<EndUserError> {
    match e
    case EndUser(eue) => Some(eue)
    case Wrapped(_, inner) => AsEndUser(inner)
    case _ => None
  }

  function AsFieldErrors(e: Error): Option<seq<(string, string)>> {
    match e
    case FieldErrors(fields) => Some(fields)
    case Wrapped(_, inner) => AsFieldErrors(inner)
    case _ => None
  }

  predicate IsExternal(e: Error) {
    match e
    case External(_) => true
    case Wrapped(_, inner) => IsExternal(inner)
    case _ => false
  }

  /** Later entries for a field replace earlier ones. */
  function FieldMap(fields: seq<(string, string)>): map<string, string>
    decreases |fields|
  {
    if fields == [] then map[]
    else FieldMap(fields[..|fields| - 1])[fields[|fields| - 1].0 := fields[|fields| - 1].1]
  }

  /** Entry i is the last for its field. */
  predicate LastFor(fields: seq<(string, string)>, i: nat) {
    i < |fields| && forall j :: i < j < |fields| ==> fields[j].0 != fields[i].0
  }

  predicate HasField(fields: seq<(string, string)>, k: string) {
    exists i :: 0 <= i < |fields| && fields[i].0 == k
  }

  /** The answer has exactly the fields that occur. */
  lemma {:induction false} FieldMapHas(fields: seq<(string, string)>, k: string)
    ensures k in FieldMap(fields) <==> HasField(fields, k)
    decreases |fields|
  {
    if fields != [] {
      var front := fields[..|fields| - 1];
      FieldMapHas(front, k);
      if HasField(fields, k) {
        var i :| 0 <= i < |fields| && fields[i].0 == k;
        assert i < |front| ==> front[i].0 == k;
      }
      if HasField(front, k) {
        var i :| 0 <= i < |front| && front[i].0 == k;
        assert fields[i].0 == k;
      }
      assert fields[|fields| - 1].0 == k ==> HasField(fields, k);
    }
  }

  /** And each with its last entry. */
  lemma {:induction false} FieldMapIs(fields: seq<(string, string)>, i: nat)
    requires LastFor(fields, i)
    ensures fields[i].0 in FieldMap(fields) && FieldMap(fields)[fields[i].0] == fields[i].1
    decreases |fields|
  {
    if i < |fields| - 1 {
      var front := fields[..|fields| - 1];
      FieldMapIs(front, i);
      assert fields[|fields| - 1].0 != fields[i].0 && front[i] == fields[i];
    }
  }

  /** What the Errors middleware tells the end user about an error. */
  function ReplyFor(e: Error): EndUserError {
    if AsEndUser(e).Some? then AsEndUser(e).value
    else if AsFieldErrors(e).Some? then
      EndUserError("some fileds have invalid values", 400, FieldMap(AsFieldErrors(e).value))
    else if IsExternal(e) then EndUserError("some services are not available", 503, map[])
    else EndUserError("something went really wrong", 500, map[])
  }

  /** The first end-user error of a chain is at i. */
  predicate FirstEndUser(chain: seq<Error>, i: nat) {
    i < |chain| && chain[i].EndUser? && forall j :: 0 <= j < i ==> !chain[j].EndUser?
  }

  /** The first field errors of a chain are at i. */
  predicate FirstFields(chain: seq<Error>, i: nat) {
    i < |chain| && chain[i].FieldErrors? && forall j :: 0 <= j < i ==> !chain[j].FieldErrors?
  }

  lemma {:induction false} FieldsOfChain(e: Error)
    ensures forall i: nat :: FirstFields(Chain(e), i) ==> AsFieldErrors(e) == Some(Chain(e)[i].fields)
  {
    match e
    case Wrapped(_, inner) =>
      FieldsOfChain(inner);
      assert Chain(e)[0] == e && Chain(e)[1..] == Chain(inner);
      forall i: nat | FirstFields(Chain(e), i)
        ensures AsFieldErrors(e) == Some(Chain(e)[i].fields)
      {
        assert FirstFields(Chain(inner), i - 1);
      }
    case _ =>
  }

  /** Wrapping an error changes nothing for the end user, and an external error hides what is inside. */
  lemma WrapAndHide(message: string, e: Error)
    ensures ReplyFor(Wrapped(message, e)) == ReplyFor(e)
    ensures ReplyFor(External(e)) == EndUserError("some services are not available", 503, map[])
  {
  }

  /** The whole answer to an error without an end-user error in its chain. */
  lemma ReplyByClass(e: Error)
    requires forall x :: x in Chain(e) ==> !x.EndUser?
    ensures forall i: nat :: FirstFields(Chain(e), i) ==>
      ReplyFor(e) == EndUserError("some fileds have invalid values", 400, FieldMap(Chain(e)[i].fields))
    ensures (forall x :: x in Chain(e) ==> !x.FieldErrors?) ==>
      ReplyFor(e) ==
        if exists x :: x in Chain(e) && x.External? then EndUserError("some services are not available", 503, map[])
        else EndUserError("something went really wrong", 500, map[])
  {
    ChainClasses(e);
    FieldsOfChain(e);
  }

  lemma {:induction false} ChainClasses(e: Error)
    ensures AsEndUser(e).Some? ==>
      exists i: nat :: FirstEndUser(Chain(e), i) && Chain(e)[i].eue == AsEndUser(e).value
    ensures AsEndUser(e).None? <==> forall x :: x in Chain(e) ==> !x.EndUser?
    ensures AsFieldErrors(e).Some? <==> exists x :: x in Chain(e) && x.FieldErrors?
    ensures IsExternal(e) <==> exists x :: x in Chain(e) && x.External?
  {
    match e
    case Wrapped(_, inner) =>
      ChainClasses(inner);
      assert Chain(e)[0] == e && Chain(e)[1..] == Chain(inner);
      assert forall x :: x in Chain(e) <==> x == e || x in Chain(inner);
      if AsEndUser(inner).Some? {
        var i: nat :| FirstEndUser(Chain(inner), i) && Chain(inner)[i].eue == AsEndUser(inner).value;
        assert FirstEndUser(Chain(e), i + 1);
      }
    case EndUser(_) => assert FirstEndUser(Chain(e), 0);
    case _ =>
      assert e in Chain(e);
  }

  /** The status of an error depends on the classes in its wrap chain alone, by fixed priority: the
      status of the first end-user error, else 400 for field errors, else 503 for an external
      error, else 500. */
  lemma StatusByClass(e: Error)
    ensures forall i: nat :: FirstEndUser(Chain(e), i) ==> ReplyFor(e) == Chain(e)[i].eue
    ensures (forall x :: x in Chain(e) ==> !x.EndUser?) ==>
      ReplyFor(e).status ==
        if exists x :: x in Chain(e) && x.FieldErrors? then 400
        else if exists x :: x in Chain(e) && x.External? then 503
        else 500
  {
    ChainClasses(e);
    forall i: nat | FirstEndUser(Chain(e), i)
      ensures ReplyFor(e) == Chain(e)[i].eue
    {
      assert Chain(e)[i] in Chain(e);
      var j: nat :| FirstEndUser(Chain(e), j) && Chain(e)[j].eue == AsEndUser(e).value;
      assert i == j;
    }
  }

  // ---------------------------------------------------------------- one request

  datatype LogEntry = Ended(status: int) | Failed(e: Error)

  datatype Trace = Enter(tag: int) | Serve | Exit(tag: int)

  /** What the layers around a handler share: the statuses written to the response, in order; the
      status in the request's Values; the log lines of Log; and, for the theorem on nesting, the
      layers entered and left. */
  datatype World = World(written: seq<int>, cell: int, log: seq<LogEntry>, trace: seq<Trace>)

  /** A context: whether it carries Values, and the user id that Auth attached. `marshals` and
      `writes` say whether encoding a body and writing it succeed. */
  datatype Ctx = Ctx(values: bool, user: Option<int>, marshals: bool, writes: bool)

  datatype Req = Req(httpMethod: string, authorization: string)

  datatype Outcome = Outcome(world: World, err: Option<Error>)

  type Handler = (Ctx, Req, World) -> Outcome

  type Middleware = Handler -> Handler

  function SetStatusCode(ctx: Ctx, w: World, status: int): World {
    if ctx.values then w.(cell := status) else w
  }

  function Respond(ctx: Ctx, w: World, hasData: bool, status: int): Outcome {
    var w' := SetStatusCode(ctx, w, status);
    if status == 204 || !hasData then Outcome(w'.(written := w.written + [status]), None)
    else if !ctx.marshals then Outcome(w', Some(Wrapped("marshal response", Plain("json"))))
    else Outcome(w'.(written := w.written + [status]), if ctx.writes then None else Some(Plain("write")))
  }

  /** The same over the real objects: Values is shared through a pointer, which the context may lack. */
  class Values {
    var statusCode: int

    constructor ()
      ensures statusCode == 0
    {
      statusCode := 0;
    }
  }

  class ResponseWriter {
    var written: seq<int>
    var bodies: nat

    constructor ()
      ensures written == [] && bodies == 0
    {
      written, bodies := [], 0;
    }
  }

  method RespondTo(v: Values?, w: ResponseWriter, hasData: bool, status: int, marshals: bool, writes: bool)
      returns (err: Option<Error>)
    modifies v, w
    ensures var before := World(old(w.written), if v == null then 0 else old(v.statusCode), [], []);
      Outcome(World(w.written, if v == null then 0 else v.statusCode, [], []), err)
      == Respond(Ctx(v != null, None, marshals, writes), before, hasData, status)
    ensures w.bodies > old(w.bodies) <==> status != 204 && hasData && marshals && writes
  {
    if v != null {
      v.statusCode := status;
    }
    if status == 204 || !hasData {
      w.written := w.written + [status];
      return None;
    }
    if !marshals {
      return Some(Wrapped("marshal response", Plain("json")));
    }
    w.written := w.written + [status];
    if !writes {
      return Some(Plain("write"));
    }
    w.bodies := w.bodies + 1;
    err := None;
  }

  // ---------------------------------------------------------------- middlewares

  function Log(): Middleware {
    (h: Handler) => (ctx: Ctx, r: Req, w: World) =>
      var o := h(ctx, r, w);
      if o.err.Some? then o.(world := o.world.(log := o.world.log + [Failed(o.err.value)]))
      else o.(world := o.world.(log := o.world.log + [Ended(if ctx.values then o.world.cell else 0)]))
  }

  function Errors(): Middleware {
    (h: Handler) => (ctx: Ctx, r: Req, w: World) =>
      var o := h(ctx, r, w);
      if o.err.Some? then Respond(ctx, o.world, true, ReplyFor(o.err.value).status)
      else o
  }

  const INVALID_TOKEN := EndUser(EndUserError("token provided is not valid", 401, map[]))

  /** `parse` gives the user id of an Authorization header that passes. */
  function Auth(parse: string -> Option<int>): Middleware {
    (h: Handler) => (ctx: Ctx, r: Req, w: World) =>
      match parse(r.authorization)
      case None => Outcome(w, Some(INVALID_TOKEN))
      case Some(id) => h(ctx.(user := Some(id)), r, w)
  }

  // ---------------------------------------------------------------- composition

  /** The handler wrapped by all of mw, the first outermost; nil entries are skipped. */
  function Fold(mw: seq<Option<Middleware>>, h: Handler): Handler {
    if mw == [] then h
    else if mw[0].None? then Fold(mw[1..], h)
    else mw[0].value(Fold(mw[1..], h))
  }

  method ApplyMiddlewares(handler: Handler, mw: seq<Option<Middleware>>) returns (h: Handler)
    ensures h == Fold(mw, handler)
  {
    h := handler;
    assert mw[|mw|..] == [];
    for i := |mw| downto 0
      invariant h == Fold(mw[i..], handler)
    {
      var mid := mw[i];
      assert mw[i..][0] == mid && mw[i..][1..] == mw[i + 1..];
      if mid.Some? {
        h := mid.value(h);
      }
    }
    assert mw[0..] == mw;
  }

  /** Wrapping with the route's middlewares and then the app's is wrapping once with both. */
  lemma {:induction false} FoldAppend(app: seq<Option<Middleware>>, route: seq<Option<Middleware>>, h: Handler)
    ensures Fold(app + route, h) == Fold(app, Fold(route, h))
    decreases |app|
  {
    if app == [] {
      assert app + route == route;
    } else {
      FoldAppend(app[1..], route, h);
      assert (app + route)[1..] == app[1..] + route;
    }
  }

  /** A middleware that notes entry and exit, may change the context, and otherwise just calls on. */
  datatype Layer = Layer(tag: int, adjust: Ctx -> Ctx)

  function PassThrough(l: Layer): Middleware {
    (h: Handler) => (ctx: Ctx, r: Req, w: World) =>
      var o := h(l.adjust(ctx), r, w.(trace := w.trace + [Enter(l.tag)]));
      o.(world := o.world.(trace := o.world.trace + [Exit(l.tag)]))
  }

  function Layers(ls: seq<Option<Layer>>): seq<Option<Middleware>> {
    if ls == [] then []
    else [if ls[0].None? then None else Some(PassThrough(ls[0].value))] + Layers(ls[1..])
  }

  function Enters(ls: seq<Option<Layer>>): seq<Trace> {
    if ls == [] then [] else (if ls[0].None? then [] else [Enter(ls[0].value.tag)]) + Enters(ls[1..])
  }

  function Exits(ls: seq<Option<Layer>>): seq<Trace> {
    if ls == [] then [] else Exits(ls[1..]) + (if ls[0].None? then [] else [Exit(ls[0].value.tag)])
  }

  /** The handler under the layers notes that it served. */
  ghost predicate Serves(h: Handler) {
    forall ctx, r, w :: h(ctx, r, w).world.trace == w.trace + [Serve]
  }

  lemma {:induction false} ProperlyNested(ls: seq<Option<Layer>>, h: Handler, ctx: Ctx, r: Req, w: World)
    requires Serves(h)
    ensures Fold(Layers(ls), h)(ctx, r, w).world.trace == w.trace + Enters(ls) + [Serve] + Exits(ls)
    decreases |ls|
  {
    if ls == [] {
      assert w.trace + [] + [Serve] + [] == w.trace + [Serve];
    } else {
      var inner := Fold(Layers(ls[1..]), h);
      assert Layers(ls)[1..] == Layers(ls[1..]);
      if ls[0].None? {
        ProperlyNested(ls[1..], h, ctx, r, w);
        assert Enters(ls) == Enters(ls[1..]) && Exits(ls) == Exits(ls[1..]);
      } else {
        var l := ls[0].value;
        var w' := w.(trace := w.trace + [Enter(l.tag)]);
        ProperlyNested(ls[1..], h, l.adjust(ctx), r, w');
        assert Fold(Layers(ls), h) == PassThrough(l)(inner);
        var o := inner(l.adjust(ctx), r, w');
        assert Fold(Layers(ls), h)(ctx, r, w).world.trace == o.world.trace + [Exit(l.tag)];
        Regroup(w.trace, Enter(l.tag), Enters(ls[1..]), Serve, Exits(ls[1..]), Exit(l.tag));
      }
    }
  }

  lemma Regroup(a: seq<Trace>, x: Trace, b: seq<Trace>, y: Trace, c: seq<Trace>, z: Trace)
    ensures a + [x] + b + [y] + c + [z] == a + ([x] + b) + [y] + (c + [z])
  {
  }

  // ---------------------------------------------------------------- a route

  /** The response to one request of a route, and how often the app asks to shut down. */
  datatype Handled = Handled(world: World, shutdowns: nat)

  const START := World([], 0, [], [])

  /** What Handle registers for a route. */
  function Handle(httpMethod: string, app: seq<Option<Middleware>>, route: seq<Option<Middleware>>, handler: Handler,
                  r: Req, marshals: bool, writes: bool): Handled
  {
    if r.httpMethod != httpMethod then Handled(START.(written := [405]), 0)
    else
      var o := Fold(app, Fold(route, handler))(Ctx(true, None, marshals, writes), r, START);
      if o.err.None? then Handled(o.world, 0)
      else Handled(o.world.(written := o.world.written + [500]), 1)
  }

  /** The handler has written one response, through Respond, if and only if it returns nil. */
  ghost predicate Proper(ctx: Ctx, r: Req, w: World, o: Outcome) {
    && o.world.log == w.log
    && (o.err.None? ==> exists status :: o.world.written == w.written + [status] && o.world.cell == status)
    && (o.err.Some? ==> o.world.written == w.written)
  }

  /** Every request is answered once and logged with the status that was sent, and the app keeps
      running, except exactly when the answer to an error cannot be encoded or written. */
  lemma EveryRequestAnswered(httpMethod: string, route: seq<Option<Middleware>>, handler: Handler,
                             r: Req, marshals: bool, writes: bool)
    requires var ctx := Ctx(true, None, marshals, writes);
      Proper(ctx, r, START, Fold(route, handler)(ctx, r, START))
    ensures var res := Handle(httpMethod, [Some(Log()), Some(Errors())], route, handler, r, marshals, writes);
      var o := Fold(route, handler)(Ctx(true, None, marshals, writes), r, START);
      if r.httpMethod != httpMethod then
        res.world.written == [405] && res.world.log == [] && res.shutdowns == 0
      else if o.err.None? then
        res.shutdowns == 0 && |res.world.written| == 1 && res.world.log == [Ended(res.world.written[0])]
      else
        var status := ReplyFor(o.err.value).status;
        if status == 204 || (marshals && writes) then
          res.shutdowns == 0 && res.world.written == [status] && res.world.log == [Ended(status)]
        else
          && res.shutdowns == 1 && res.world.written == (if marshals then [status, 500] else [500])
          && |res.world.log| == 1 && res.world.log[0].Failed?
  {
  }

  /** Handlers that decide first and respond last, as all of the program's do. */
  datatype Decision = Fail(e: Error) | Reply(hasData: bool, status: int)

  function RespondLast(decide: (Ctx, Req) -> Decision): Handler {
    (ctx: Ctx, r: Req, w: World) =>
      match decide(ctx, r)
      case Fail(e) => Outcome(w, Some(e))
      case Reply(hasData, status) => Respond(ctx, w, hasData, status)
  }

  function Auths(parses: seq<Option<string -> Option<int>>>): seq<Option<Middleware>> {
    if parses == [] then []
    else [if parses[0].None? then None else Some(Auth(parses[0].value))] + Auths(parses[1..])
  }

  /** What such a handler decides behind Auth middlewares: the first of them to refuse the header
      decides for it, and the last user id attached is the one it sees. */
  function Verdict(parses: seq<Option<string -> Option<int>>>, decide: (Ctx, Req) -> Decision,
                   ctx: Ctx, r: Req): Decision
  {
    if parses == [] then decide(ctx, r)
    else if parses[0].None? then Verdict(parses[1..], decide, ctx, r)
    else
      match parses[0].value(r.authorization)
      case None => Fail(INVALID_TOKEN)
      case Some(id) => Verdict(parses[1..], decide, ctx.(user := Some(id)), r)
  }

  function Carry(d: Decision, ctx: Ctx, w: World): Outcome {
    match d
    case Fail(e) => Outcome(w, Some(e))
    case Reply(hasData, status) => Respond(ctx, w, hasData, status)
  }

  lemma {:induction false} ServedAsDecided(parses: seq<Option<string -> Option<int>>>, decide: (Ctx, Req) -> Decision,
                                           ctx: Ctx, r: Req, w: World)
    ensures Fold(Auths(parses), RespondLast(decide))(ctx, r, w) == Carry(Verdict(parses, decide, ctx, r), ctx, w)
    decreases |parses|
  {
    if parses != [] {
      assert Auths(parses)[1..] == Auths(parses[1..]);
      var inner := Fold(Auths(parses[1..]), RespondLast(decide));
      if parses[0].None? {
        ServedAsDecided(parses[1..], decide, ctx, r, w);
      } else {
        assert Fold(Auths(parses), RespondLast(decide)) == Auth(parses[0].value)(inner);
        match parses[0].value(r.authorization)
        case None =>
        case Some(id) => ServedAsDecided(parses[1..], decide, ctx.(user := Some(id)), r, w);
      }
    }
  }

  /** This Auth is there and refuses the header. */
  predicate Refuses(parse: Option<string -> Option<int>>, r: Req) {
    parse.Some? && parse.value(r.authorization).None?
  }

  /** The last Auth that is there is at i. */
  predicate LastAuth(parses: seq<Option<string -> Option<int>>>, i: nat) {
    i < |parses| && parses[i].Some? && forall j :: i < j < |parses| ==> parses[j].None?
  }

  /** If any Auth refuses the answer is 401. If none does, the handler decides, with the user id of the
      last one, or with the context as it came if there is none. */
  lemma {:induction false} VerdictIs(parses: seq<Option<string -> Option<int>>>, decide: (Ctx, Req) -> Decision,
                                     ctx: Ctx, r: Req)
    ensures (exists i :: 0 <= i < |parses| && Refuses(parses[i], r)) ==>
      StatusFor(Verdict(parses, decide, ctx, r)) == 401
    ensures (forall i :: 0 <= i < |parses| ==> parses[i].None?) ==>
      Verdict(parses, decide, ctx, r) == decide(ctx, r)
    ensures (forall i :: 0 <= i < |parses| ==> !Refuses(parses[i], r)) ==> forall i: nat :: LastAuth(parses, i) ==>
      Verdict(parses, decide, ctx, r) == decide(ctx.(user := parses[i].value(r.authorization)), r)
    decreases |parses|
  {
    if parses != [] {
      var rest := parses[1..];
      assert forall i :: 0 <= i < |rest| ==> rest[i] == parses[i + 1];
      var ctx' := if parses[0].None? then ctx else ctx.(user := parses[0].value(r.authorization));
      VerdictIs(rest, decide, ctx', r);
      if !Refuses(parses[0], r) {
        assert Verdict(parses, decide, ctx, r) == Verdict(rest, decide, ctx', r);
        VerdictRest(parses, r);
        forall i: nat | LastAuth(parses, i)
          ensures i > 0 ==> LastAuth(rest, i - 1)
          ensures i == 0 ==> forall j :: 0 <= j < |rest| ==> rest[j].None?
        {
        }
      }
    }
  }

  lemma VerdictRest(parses: seq<Option<string -> Option<int>>>, r: Req)
    requires parses != [] && !Refuses(parses[0], r)
    ensures (exists i :: 0 <= i < |parses| && Refuses(parses[i], r))
      <==> (exists i :: 0 <= i < |parses[1..]| && Refuses(parses[1..][i], r))
  {
    if i :| 0 <= i < |parses| && Refuses(parses[i], r) {
      assert parses[1..][i - 1] == parses[i];
    }
  }

  /** Behind any number of Auth middlewares such a handler is proper if encoding and writing succeed. */
  lemma RespondLastIsProper(parses: seq<Option<string -> Option<int>>>, decide: (Ctx, Req) -> Decision,
                            ctx: Ctx, r: Req, w: World)
    requires ctx.values && ctx.marshals && ctx.writes
    ensures Proper(ctx, r, w, Fold(Auths(parses), RespondLast(decide))(ctx, r, w))
  {
    ServedAsDecided(parses, decide, ctx, r, w);
    var o := Carry(Verdict(parses, decide, ctx, r), ctx, w);
    assert o.err.None? ==> o.world.written == w.written + [o.world.cell];
  }

  function StatusFor(d: Decision): int {
    match d
    case Fail(e) => ReplyFor(e).status
    case Reply(_, status) => status
  }

  /** The answer has no body, or its body can be encoded and written. */
  predicate CanSend(d: Decision, marshals: bool, writes: bool) {
    StatusFor(d) == 204 || (d.Reply? && !d.hasData) || (marshals && writes)
  }

  /** The program's routes, for every request: the app asks to shut down if and only if the answer
      has a body that cannot be encoded or written. Otherwise exactly one status is written, that of
      the verdict, and it is the one logged. */
  lemma RouteAnswersOnce(httpMethod: string, parses: seq<Option<string -> Option<int>>>, decide: (Ctx, Req) -> Decision,
                         r: Req, marshals: bool, writes: bool)
    requires r.httpMethod == httpMethod
    ensures var res := Handle(httpMethod, [Some(Log()), Some(Errors())], Auths(parses), RespondLast(decide),
                              r, marshals, writes);
      var d := Verdict(parses, decide, Ctx(true, None, marshals, writes), r);
      && (res.shutdowns == if CanSend(d, marshals, writes) then 0 else 1)
      && (CanSend(d, marshals, writes) ==>
            res.world.written == [StatusFor(d)] && res.world.log == [Ended(StatusFor(d))])
  {
    var ctx := Ctx(true, None, marshals, writes);
    ServedAsDecided(parses, decide, ctx, r, START);
    var app: seq<Option<Middleware>> := [Some(Log()), Some(Errors())];
    var inner := Fold(Auths(parses), RespondLast(decide));
    assert app[1..] == [Some(Errors())];
    assert Fold(app, inner) == Log()(Errors()(inner));
  }
}
