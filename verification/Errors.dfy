/** Go error values: a chain of wrappers around one base error, searched by errors.As and errors.Is. */
module Errors {

  datatype Kind =
    | Plain
    | Canceled          // context.Canceled
    | DeadlineExceeded  // context.DeadlineExceeded, and transport errors that report it
    | WindowClosed      // errWindowClosed, the gateway's closed 24h window

  datatype Err =
    | Base(kind: Kind, text: string)
    | Fatal(inner: Err)                    // notRetriable(err)
    | Retriable(inner: Err)                // retriable(err)
    | Wrapped(prefix: string, inner: Err)  // fmt.Errorf("prefix: %w", err)

  /** What one call of a Go function returning `error` produced. */
  datatype Outcome = Nil | Failure(err: Err)

  /** The links of the chain, outermost first, as repeated Unwrap visits them. */
  function Chain(e: Err): seq<Err> {
    match e
    case Base(_, _) => [e]
    case Fatal(inner) => [e] + Chain(inner)
    case Retriable(inner) => [e] + Chain(inner)
    case Wrapped(_, inner) => [e] + Chain(inner)
  }

  /** errors.As(err, &fatalError) failing: the recursive search the retry loop performs. */
  predicate IsRetriable(e: Err) {
    match e
    case Base(_, _) => true
    case Fatal(_) => false
    case Retriable(inner) => IsRetriable(inner)
    case Wrapped(_, inner) => IsRetriable(inner)
  }

  /** errors.Is against a sentinel: wrappers are transparent. */
  function Root(e: Err): Kind {
    match e
    case Base(kind, _) => kind
    case Fatal(inner) => Root(inner)
    case Retriable(inner) => Root(inner)
    case Wrapped(_, inner) => Root(inner)
  }

  predicate IsContextError(e: Err) {
    Root(e) == Canceled || Root(e) == DeadlineExceeded
  }

  predicate IsWindowClosed(e: Err) {
    Root(e) == WindowClosed
  }

  /** err.Error(): the fatal and retriable wrappers add no text. */
  function Text(e: Err): string {
    match e
    case Base(_, text) => text
    case Fatal(inner) => Text(inner)
    case Retriable(inner) => Text(inner)
    case Wrapped(prefix, inner) => prefix + ": " + Text(inner)
  }

  /** An error is given up on exactly when some link of its chain, at any depth, is fatal. */
  lemma {:induction false} RetriableIffNoFatalLink(e: Err)
    ensures IsRetriable(e) <==> forall link <- Chain(e) :: !link.Fatal?
  {
    match e
    case Base(_, _) =>
    case Fatal(inner) =>
      assert Chain(e)[0].Fatal?;
    case Retriable(inner) =>
      RetriableIffNoFatalLink(inner);
    case Wrapped(_, inner) =>
      RetriableIffNoFatalLink(inner);
  }

  /** Without fmt.Errorf in between, an error's text is that of its base. */
  lemma {:induction false} TextOfTheBase(e: Err)
    requires forall link <- Chain(e) :: !link.Wrapped?
    ensures var base := Chain(e)[|Chain(e)| - 1]; base.Base? && Text(e) == base.text
  {
    assert Chain(e)[0] == e;
    if e.Fatal? || e.Retriable? {
      TextOfTheBase(e.inner);
    }
  }

  /** Both context errors and the closed window are recognised under any wrappers, and nothing else is. */
  lemma RecognisedErrors(e: Err)
    ensures IsContextError(e)
       <==> exists link <- Chain(e) :: link.Base? && (link.kind == Canceled || link.kind == DeadlineExceeded)
    ensures IsWindowClosed(e) <==> exists link <- Chain(e) :: link.Base? && link.kind == WindowClosed
  {
    SentinelIsFoundUnderWrappers(e, Canceled);
    SentinelIsFoundUnderWrappers(e, DeadlineExceeded);
    SentinelIsFoundUnderWrappers(e, WindowClosed);
  }

  /** errors.Is finds a sentinel exactly when it is the base of the chain, under any wrappers. */
  lemma {:induction false} SentinelIsFoundUnderWrappers(e: Err, kind: Kind)
    ensures Root(e) == kind <==> exists link <- Chain(e) :: link.Base? && link.kind == kind
  {
    match e
    case Base(_, _) =>
      assert Chain(e)[0] == e;
    case Fatal(inner) =>
      SentinelIsFoundUnderWrappers(inner, kind);
    case Retriable(inner) =>
      SentinelIsFoundUnderWrappers(inner, kind);
    case Wrapped(_, inner) =>
      SentinelIsFoundUnderWrappers(inner, kind);
  }
}
