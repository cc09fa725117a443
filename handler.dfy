/** Visiting entities with a consumer or a function (double dispatch onto one
    `match` handler per variant) and the exception translation that
    `EntityConsumer.accept` performs around it. */
module Handler {
  import opened Domain

  /** The payload of a checked or runtime exception other than a
      `StreamException`; kept opaque. */
  type ExceptionInfo(==)

  /** The payload of a `java.lang.Error`; kept opaque. */
  type ErrorInfo(==)

  /** What a handler can throw. `StreamException` is the stream library's
      unchecked exception and may carry a cause; `OtherException` is any other
      `Exception`; `Error` is a `Throwable` that is not an `Exception`. */
  datatype Throwable =
    | StreamException(cause: Option<Throwable>)
    | OtherException(info: ExceptionInfo)
    | Error(error: ErrorInfo)

  /** How a `void` call ends: normally or by throwing. */
  datatype Outcome = Completed | Threw(thrown: Throwable)

  /** How a value-returning call ends. */
  datatype Result<T> = Returned(value: T) | Raised(thrown: Throwable)

  /** The five `match` overloads of an `EntityConsumer`. What a handler does
      is opaque; only how it ends is observable. */
  datatype EntityConsumer = EntityConsumer(
    matchHeader: Header -> Outcome,
    matchBound: Bound -> Outcome,
    matchNode: Node -> Outcome,
    matchWay: Way -> Outcome,
    matchRelation: Relation -> Outcome)

  /** The five `match` overloads of an `EntityFunction<T>`. */
  datatype EntityFunction<T> = EntityFunction(
    matchHeader: Header -> Result<T>,
    matchBound: Bound -> Result<T>,
    matchNode: Node -> Result<T>,
    matchWay: Way -> Result<T>,
    matchRelation: Relation -> Result<T>)

  /** Names the `match` overload that belongs to each variant. */
  datatype MatchOverload = MatchHeader | MatchBound | MatchNode | MatchWay | MatchRelation

  /** The overload an entity's `visit` selects. */
  function HandlerFor(e: Entity): (h: MatchOverload)
    ensures e.HeaderEntity? <==> h == MatchHeader
    ensures e.BoundEntity? <==> h == MatchBound
    ensures e.NodeEntity? <==> h == MatchNode
    ensures e.WayEntity? <==> h == MatchWay
    ensures e.RelationEntity? <==> h == MatchRelation
  {
    match e
    case HeaderEntity(_) => MatchHeader
    case BoundEntity(_) => MatchBound
    case NodeEntity(_) => MatchNode
    case WayEntity(_) => MatchWay
    case RelationEntity(_) => MatchRelation
  }

  /** `entity.visit(consumer)`: each variant calls `consumer.match(this)`. */
  function Visit(e: Entity, c: EntityConsumer): Outcome
  {
    match e
    case HeaderEntity(h) => c.matchHeader(h)
    case BoundEntity(b) => c.matchBound(b)
    case NodeEntity(n) => c.matchNode(n)
    case WayEntity(w) => VisitWay(w, c)
    case RelationEntity(r) => c.matchRelation(r)
  }

  /** `Way.visit(EntityConsumer)`: the outcome is that of the way handler. */
  function VisitWay(w: Way, c: EntityConsumer): Outcome
  {
    c.matchWay(w)
  }

  /** `Way.visit(EntityFunction<T>)`: returns or throws exactly what the way
      handler does. */
  function VisitWayWith<T>(w: Way, f: EntityFunction<T>): Result<T>
  {
    f.matchWay(w)
  }

  /** `entity.visit(function)`. */
  function VisitWith<T>(e: Entity, f: EntityFunction<T>): Result<T>
  {
    match e
    case HeaderEntity(h) => f.matchHeader(h)
    case BoundEntity(b) => f.matchBound(b)
    case NodeEntity(n) => f.matchNode(n)
    case WayEntity(w) => VisitWayWith(w, f)
    case RelationEntity(r) => f.matchRelation(r)
  }

  /** Two consumers whose handlers for `e`'s variant behave alike on `e`. */
  predicate AgreeOn(c1: EntityConsumer, c2: EntityConsumer, e: Entity)
  {
    match HandlerFor(e)
    case MatchHeader => c1.matchHeader(e.header) == c2.matchHeader(e.header)
    case MatchBound => c1.matchBound(e.bound) == c2.matchBound(e.bound)
    case MatchNode => c1.matchNode(e.node) == c2.matchNode(e.node)
    case MatchWay => c1.matchWay(e.way) == c2.matchWay(e.way)
    case MatchRelation => c1.matchRelation(e.relation) == c2.matchRelation(e.relation)
  }

  /** Two functions whose handlers for `e`'s variant behave alike on `e`. */
  ghost predicate FunctionsAgreeOn<T>(f1: EntityFunction<T>, f2: EntityFunction<T>, e: Entity)
  {
    match HandlerFor(e)
    case MatchHeader => f1.matchHeader(e.header) == f2.matchHeader(e.header)
    case MatchBound => f1.matchBound(e.bound) == f2.matchBound(e.bound)
    case MatchNode => f1.matchNode(e.node) == f2.matchNode(e.node)
    case MatchWay => f1.matchWay(e.way) == f2.matchWay(e.way)
    case MatchRelation => f1.matchRelation(e.relation) == f2.matchRelation(e.relation)
  }

  // ----------------------------------------------------------------------
  // Exception translation

  /** The `try`/`catch` of `accept`: a `StreamException` is rethrown as it is,
      any other `Exception` is wrapped in a new `StreamException`, and an
      `Error`, which `catch (Exception e)` does not catch, propagates
      unchanged. */
  function Translate(o: Outcome): (r: Outcome)
    ensures o.Completed? <==> r.Completed?
    ensures o.Threw? && o.thrown.StreamException? ==> r == o
    ensures o.Threw? && o.thrown.OtherException? ==> r == Threw(StreamException(Some(o.thrown)))
    ensures o.Threw? && o.thrown.Error? ==> r == o
  {
    match o
    case Completed => Completed
    case Threw(t) =>
      match t
      case StreamException(_) => o
      case OtherException(_) => Threw(StreamException(Some(t)))
      case Error(_) => o
  }

  /** `consumer.accept(entity)`: what escapes is a `StreamException` or an
      uncaught `Error`. */
  function Accept(c: EntityConsumer, e: Entity): (r: Outcome)
    ensures r.Threw? ==> r.thrown.StreamException? || r.thrown.Error?
  {
    Translate(Visit(e, c))
  }

  /** How many `StreamException`s are nested at the top of a throwable. */
  function StreamDepth(t: Throwable): nat
  {
    match t
    case StreamException(cause) =>
      1 + (match cause case None => 0 case Some(inner) => StreamDepth(inner))
    case OtherException(_) => 0
    case Error(_) => 0
  }

  // ----------------------------------------------------------------------
  // Properties of dispatch

  /** `visit` runs the handler that `HandlerFor` selects, on the entity's own
      payload, for both the consumer and the function form. */
  lemma VisitDispatchesToSelectedHandler<T>(e: Entity, c: EntityConsumer, f: EntityFunction<T>)
    ensures HandlerFor(e) == MatchHeader ==>
      Visit(e, c) == c.matchHeader(e.header) && VisitWith(e, f) == f.matchHeader(e.header)
    ensures HandlerFor(e) == MatchBound ==>
      Visit(e, c) == c.matchBound(e.bound) && VisitWith(e, f) == f.matchBound(e.bound)
    ensures HandlerFor(e) == MatchNode ==>
      Visit(e, c) == c.matchNode(e.node) && VisitWith(e, f) == f.matchNode(e.node)
    ensures HandlerFor(e) == MatchWay ==>
      Visit(e, c) == c.matchWay(e.way) && VisitWith(e, f) == f.matchWay(e.way)
    ensures HandlerFor(e) == MatchRelation ==>
      Visit(e, c) == c.matchRelation(e.relation) && VisitWith(e, f) == f.matchRelation(e.relation)
  {
  }

  /** No other handler influences `visit` or `accept`: two consumers that agree
      on the handler for `e`'s variant give the same outcome. */
  lemma AcceptOnlyUsesSelectedHandler(e: Entity, c1: EntityConsumer, c2: EntityConsumer)
    requires AgreeOn(c1, c2, e)
    ensures Visit(e, c1) == Visit(e, c2)
    ensures Accept(c1, e) == Accept(c2, e)
  {
  }

  /** The function form of `visit` returns the matching handler's result
      unchanged and depends on no other handler. */
  lemma VisitWithOnlyUsesSelectedHandler<T>(e: Entity, f1: EntityFunction<T>, f2: EntityFunction<T>)
    requires FunctionsAgreeOn(f1, f2, e)
    ensures VisitWith(e, f1) == VisitWith(e, f2)
  {
  }

  /** Visiting a way with a consumer or a function yields exactly the way
      handler's outcome or result. */
  lemma VisitWayIsWayHandler<T>(w: Way, c: EntityConsumer, f: EntityFunction<T>)
    ensures Visit(WayEntity(w), c) == c.matchWay(w)
    ensures VisitWith(WayEntity(w), f) == f.matchWay(w)
    ensures HandlerFor(WayEntity(w)) == MatchWay
  {
  }

  // ----------------------------------------------------------------------
  // Properties of accept

  /** If the visited handler completes, `accept` completes; if it throws,
      `accept` throws. */
  lemma AcceptCompletesIffHandlerCompletes(c: EntityConsumer, e: Entity)
    ensures Accept(c, e).Completed? <==> Visit(e, c).Completed?
  {
  }

  /** A `StreamException` from the handler is rethrown as the same object. */
  lemma AcceptRethrowsStreamException(c: EntityConsumer, e: Entity)
    requires Visit(e, c).Threw? && Visit(e, c).thrown.StreamException?
    ensures Accept(c, e) == Visit(e, c)
  {
  }

  /** Any other exception from the handler becomes a `StreamException` whose
      cause is exactly that exception. */
  lemma AcceptWrapsOtherException(c: EntityConsumer, e: Entity, x: ExceptionInfo)
    requires Visit(e, c) == Threw(OtherException(x))
    ensures Accept(c, e) == Threw(StreamException(Some(OtherException(x))))
  {
  }

  /** Every exception `accept` throws is a `StreamException`, apart from an
      `Error` it does not catch; it adds at most one level of wrapping, and
      only around a cause that is not itself a `StreamException`. */
  lemma AcceptFailureShape(c: EntityConsumer, e: Entity)
    requires Accept(c, e).Threw?
    ensures Accept(c, e).thrown.StreamException? || Accept(c, e).thrown.Error?
    ensures Accept(c, e).thrown.Error? ==> Accept(c, e) == Visit(e, c)
    ensures var t := Visit(e, c).thrown;
            StreamDepth(Accept(c, e).thrown) == if t.OtherException? then 1 else StreamDepth(t)
  {
  }

  /** Translation is idempotent: an outcome already produced by `accept` passes
      through a second `accept` (a consumer nested in another) unchanged, so
      nothing is ever wrapped twice. */
  lemma TranslateIdempotent(o: Outcome)
    ensures Translate(Translate(o)) == Translate(o)
  {
  }
}
