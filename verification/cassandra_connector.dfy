/**
  The Cassandra connector: process-wide client options, batched writes,
  streamed reads and paged reads. The cassandra-driver client is modelled
  by what it answers: the outcome of each `client.batch` call, the events a
  `client.stream` emits, and the outcome of a `client.execute`.
 */
module CassandraConnector {
  import opened Js

  // ---------------------------------------------------------------------------
  // Configuration

  const DefaultFetchSize := 1000
  const DefaultMaxOperationsPerBatch := 10
  const DefaultMaxConcurrentBatches := 50
  const DefaultCoreConnectionsPerHost := 1

  /**
    The environment variables the connector reads. For the numeric settings
    and the credentials None stands for unset or empty, since `||` skips both;
    the contact point and the keyspace are passed on as they are, so there
    None is unset and Some("") is the empty string.
   */
  datatype Env = Env(
    fetchSize: Option<int>,
    maxOperationsPerBatch: Option<int>,
    maxConcurrentBatches: Option<int>,
    coreConnectionsPerHostLocal: Option<int>,
    coreConnectionsPerHostRemote: Option<int>,
    contactPoints: Option<string>,
    keyspace: Option<string>,
    username: Option<string>,
    password: Option<string>)

  datatype Credentials = Credentials(username: string, password: string)

  datatype Pooling = Pooling(coreConnectionsPerHostLocal: int, coreConnectionsPerHostRemote: int)

  datatype ClientQueryOptions = ClientQueryOptions(autoPage: bool, prepare: bool, fetchSize: int)

  /** The options the single client is built from. */
  datatype ClientOptions = ClientOptions(
    contactPoints: seq<Option<string>>,
    keyspace: Option<string>,
    pooling: Pooling,
    queryOptions: ClientQueryOptions,
    authProvider: Option<Credentials>)

  /** The limits that govern batched writes. */
  datatype BatchLimits = BatchLimits(maxOperationsPerBatch: int, maxConcurrentBatches: int)

  /** `process.env.X || fallback` for a numeric setting. */
  function Setting(v: Option<int>, fallback: int): int
  {
    match v
    case None => fallback
    case Some(n) => n
  }

  function BatchLimitsFrom(env: Env): (limits: BatchLimits)
    ensures env.maxOperationsPerBatch.None? ==> limits.maxOperationsPerBatch == 10
    ensures env.maxConcurrentBatches.None? ==> limits.maxConcurrentBatches == 50
    ensures env.maxOperationsPerBatch.Some? ==> limits.maxOperationsPerBatch == env.maxOperationsPerBatch.value
    ensures env.maxConcurrentBatches.Some? ==> limits.maxConcurrentBatches == env.maxConcurrentBatches.value
  {
    BatchLimits(
      Setting(env.maxOperationsPerBatch, DefaultMaxOperationsPerBatch),
      Setting(env.maxConcurrentBatches, DefaultMaxConcurrentBatches))
  }

  function ClientOptionsFrom(env: Env): (options: ClientOptions)
    ensures options.contactPoints == [env.contactPoints] && options.keyspace == env.keyspace
    ensures options.queryOptions.autoPage && options.queryOptions.prepare
    ensures options.queryOptions.fetchSize == if env.fetchSize.None? then 1000 else env.fetchSize.value
    ensures options.pooling.coreConnectionsPerHostLocal
      == if env.coreConnectionsPerHostLocal.None? then 1 else env.coreConnectionsPerHostLocal.value
    ensures options.pooling.coreConnectionsPerHostRemote
      == if env.coreConnectionsPerHostRemote.None? then 1 else env.coreConnectionsPerHostRemote.value
    ensures options.authProvider.Some? <==> Present(env.username) && Present(env.password)
    ensures options.authProvider.Some? ==>
      options.authProvider.value == Credentials(env.username.value, env.password.value)
  {
    var base := ClientOptions(
      [env.contactPoints],
      env.keyspace,
      Pooling(
        Setting(env.coreConnectionsPerHostLocal, DefaultCoreConnectionsPerHost),
        Setting(env.coreConnectionsPerHostRemote, DefaultCoreConnectionsPerHost)),
      ClientQueryOptions(true, true, Setting(env.fetchSize, DefaultFetchSize)),
      None);
    if Present(env.username) && Present(env.password) then
      base.(authProvider := Some(Credentials(env.username.value, env.password.value)))
    else
      base
  }

  /** With nothing set in the environment, every setting takes its default. */
  lemma DefaultConfiguration()
    ensures var env := Env(None, None, None, None, None, None, None, None, None);
      && ClientOptionsFrom(env).queryOptions.fetchSize == 1000
      && ClientOptionsFrom(env).pooling == Pooling(1, 1)
      && ClientOptionsFrom(env).authProvider == None
      && BatchLimitsFrom(env) == BatchLimits(10, 50)
  {
  }

  // ---------------------------------------------------------------------------
  // The driver

  /** One parameterised statement, as the resolvers hand it to the connector. */
  datatype Mutation = Mutation(query: string, params: seq<Value>)

  datatype BatchOptions = BatchOptions(prepare: bool)

  /** What a `client.batch` call does: it calls back with or without an error, throws, or never calls back. */
  datatype BatchReply = Done(err: Option<Failure>) | Threw(exception: Failure) | NoCallback

  /** The per-query options the connector passes to the driver. */
  datatype QueryOptions = QueryOptions(fetchSize: int, pageState: Option<string>)

  datatype Request = Request(query: string, params: seq<Value>, options: Option<QueryOptions>)

  /** An event of a row stream; `Readable` carries what `stream.read()` returns before it returns null. */
  datatype StreamEvent<Row> = Readable(buffered: seq<Row>) | Error(err: Option<Failure>) | End

  /** What `client.stream` does: it throws, or it returns a stream that emits these events. */
  datatype StreamReply<Row> = StreamThrew(exception: Failure) | Emits(events: seq<StreamEvent<Row>>)

  /** The result set `client.execute` resolves with; `columns` stands for the fields the connector drops. */
  datatype ResultSet<Row> = ResultSet(rows: seq<Row>, pageState: Option<string>, columns: seq<string>)

  /** The driver client, as the answers it gives. */
  datatype Client<Row> = Client(
    batch: (seq<Mutation>, BatchOptions) -> BatchReply,
    stream: Request -> StreamReply<Row>,
    execute: Request -> Outcome<ResultSet<Row>>)

  // ---------------------------------------------------------------------------
  // Chunking (lodash `chunk`)

  /** Splits `xs` into consecutive chunks of `size`; a size below 1 gives no chunks at all. */
  function Chunk<T>(xs: seq<T>, size: int): (chunks: seq<seq<T>>)
    decreases |xs|
  {
    if size < 1 || xs == [] then []
    else if |xs| <= size then [xs]
    else [xs[..size]] + Chunk(xs[size..], size)
  }

  function Concat<T>(chunks: seq<seq<T>>): seq<T>
  {
    if chunks == [] then [] else chunks[0] + Concat(chunks[1..])
  }

  lemma {:induction false} ChunkLossless<T>(xs: seq<T>, size: int)
    requires size >= 1
    ensures Concat(Chunk(xs, size)) == xs
    decreases |xs|
  {
    if xs != [] && |xs| > size {
      ChunkLossless(xs[size..], size);
      assert xs == xs[..size] + xs[size..];
    }
  }

  lemma {:induction false} ChunkCount<T>(xs: seq<T>, size: int)
    requires size >= 1
    ensures |Chunk(xs, size)| == (|xs| + size - 1) / size
    decreases |xs|
  {
    if xs == [] {
      DivUnique(size - 1, size, 0, size - 1);
    } else if |xs| <= size {
      DivIsOne(|xs| + size - 1, size);
    } else {
      ChunkCount(xs[size..], size);
      DivAddOne(|xs| + size - 1, size);
    }
  }

  lemma DivAddOne(a: int, b: int)
    requires a >= b >= 1
    ensures a / b == (a - b) / b + 1
  {
    var q, r := (a - b) / b, (a - b) % b;
    assert (q + 1) * b == q * b + b;
    DivUnique(a, b, q + 1, r);
  }

  lemma DivIsOne(a: int, b: int)
    requires b >= 1 && b <= a < 2 * b
    ensures a / b == 1
  {
    DivUnique(a, b, 1, a - b);
  }

  /** Euclidean division has one quotient. */
  lemma DivUnique(a: int, b: int, q: int, r: int)
    requires b >= 1 && 0 <= r < b && a == q * b + r
    ensures a / b == q
  {
    var q', r' := a / b, a % b;
    assert (q - q') * b == r' - r;
    if q - q' >= 1 {
      MulAtLeast(q - q', b);
    } else if q' - q >= 1 {
      MulAtLeast(q' - q, b);
    }
  }

  lemma MulAtLeast(x: int, b: int)
    requires x >= 1 && b >= 1
    ensures x * b >= b
  {
  }

  lemma {:induction false} ChunkShape<T>(xs: seq<T>, size: int)
    requires size >= 1
    ensures forall i :: 0 <= i < |Chunk(xs, size)| ==> 0 < |Chunk(xs, size)[i]| <= size
    ensures forall i :: 0 <= i < |Chunk(xs, size)| - 1 ==> |Chunk(xs, size)[i]| == size
    decreases |xs|
  {
    if xs != [] && |xs| > size {
      ChunkShape(xs[size..], size);
    }
  }

  /** A size below 1, as a non-numeric setting gives, drops every mutation. */
  lemma NoChunksBelowSizeOne<T>(xs: seq<T>, size: int)
    requires size < 1
    ensures Chunk(xs, size) == []
  {
  }

  /** The concrete case: 25 mutations in chunks of 10 make three batches of 10, 10 and 5. */
  lemma {:induction false} TwentyFiveInTens<T>(xs: seq<T>)
    requires |xs| == 25
    ensures |Chunk(xs, 10)| == 3
    ensures Chunk(xs, 10) == [xs[..10], xs[10..20], xs[20..]]
  {
    var rest := xs[10..];
    assert Chunk(rest, 10) == [rest[..10]] + Chunk(rest[10..], 10);
    assert rest[10..] == xs[20..];
    assert rest[..10] == xs[10..20];
  }

  // ---------------------------------------------------------------------------
  // executeBatchMutations

  const NoClientMessage := "No Cassandra client defined"
  const NoMutationsMessage := "No mutations defined"

  /** A callback error and a synchronous exception fail the chunk alike. */
  predicate Succeeded(reply: BatchReply)
  {
    reply == Done(None)
  }

  /**
    Where the call ends up when a chunk fails: its callback error and its
    exception reject alike, and a batch that never calls back leaves the
    call waiting.
   */
  function ChunkFailure(reply: BatchReply): (r: Outcome<BatchRunResult>)
    requires !Succeeded(reply)
    ensures r.Pending? <==> reply.NoCallback?
    ensures reply.Threw? ==> r == Rejected(reply.exception)
    ensures reply.Done? ==> r == Rejected(reply.err.value)
  {
    match reply
    case Done(err) => Rejected(err.value)
    case Threw(e) => Rejected(e)
    case NoCallback => Pending
  }

  datatype BatchCall = BatchCall(chunk: seq<Mutation>, options: BatchOptions)

  datatype BatchRunResult = BatchRunResult(numBatchMutations: nat)

  /** The index of the first chunk the driver fails, or the chunk count when none fails. */
  function FirstFailed(batch: (seq<Mutation>, BatchOptions) -> BatchReply, chunks: seq<seq<Mutation>>): (k: nat)
    ensures k <= |chunks|
    ensures forall i :: 0 <= i < k ==> Succeeded(batch(chunks[i], BatchOptions(true)))
    ensures k < |chunks| ==> !Succeeded(batch(chunks[k], BatchOptions(true)))
  {
    if chunks == [] then 0
    else if !Succeeded(batch(chunks[0], BatchOptions(true))) then 0
    else 1 + FirstFailed(batch, chunks[1..])
  }

  /**
    Checks for a client, then for mutations, then sends each chunk of
    `maxOperationsPerBatch` mutations as one prepared batch, in order, until
    one fails; a batch that never calls back leaves the call pending.
    `dispatched` lists the batches sent; the ones before a failure have been
    applied and stay applied.
   */
  method ExecuteBatchMutations<Row>(client: Option<Client<Row>>, mutations: Option<seq<Mutation>>, maxOperationsPerBatch: int)
    returns (r: Outcome<BatchRunResult>, dispatched: seq<BatchCall>)
    ensures client.None? ==> r == Rejected(Reason(NoClientMessage)) && dispatched == []
    ensures client.Some? && (mutations.None? || mutations.value == []) ==>
      r == Rejected(Reason(NoMutationsMessage)) && dispatched == []
    ensures forall call :: call in dispatched ==> call.options == BatchOptions(true)
    ensures client.Some? && mutations.Some? && mutations.value != [] ==>
      var chunks := Chunk(mutations.value, maxOperationsPerBatch);
      var k := FirstFailed(client.value.batch, chunks);
      && |dispatched| == (if k < |chunks| then k + 1 else |chunks|)
      && (forall i :: 0 <= i < |dispatched| ==> dispatched[i].chunk == chunks[i])
      && (k == |chunks| ==> r == Resolved(BatchRunResult(|chunks|)))
      && (k < |chunks| ==> r == ChunkFailure(client.value.batch(chunks[k], BatchOptions(true))))
  {
    dispatched := [];
    if client.None? {
      return Rejected(Reason(NoClientMessage)), dispatched;
    }
    if mutations.None? || mutations.value == [] {
      return Rejected(Reason(NoMutationsMessage)), dispatched;
    }
    var batch := client.value.batch;
    var chunks := Chunk(mutations.value, maxOperationsPerBatch);
    var i := 0;
    while i < |chunks|
      invariant 0 <= i <= |chunks|
      invariant |dispatched| == i
      invariant forall j :: 0 <= j < i ==> dispatched[j] == BatchCall(chunks[j], BatchOptions(true))
      invariant forall j :: 0 <= j < i ==> Succeeded(batch(chunks[j], BatchOptions(true)))
    {
      var options := BatchOptions(true);
      var reply := batch(chunks[i], options);
      dispatched := dispatched + [BatchCall(chunks[i], options)];
      if !Succeeded(reply) {
        FirstFailedIs(batch, chunks, i);
        return ChunkFailure(reply), dispatched;
      }
      i := i + 1;
    }
    FirstFailedIs(batch, chunks, i);
    r := Resolved(BatchRunResult(|chunks|));
  }

  /** The first failing chunk is the one before which all succeed and which fails (or the end). */
  lemma {:induction false} FirstFailedIs(batch: (seq<Mutation>, BatchOptions) -> BatchReply, chunks: seq<seq<Mutation>>, k: nat)
    requires k <= |chunks|
    requires forall i :: 0 <= i < k ==> Succeeded(batch(chunks[i], BatchOptions(true)))
    requires k < |chunks| ==> !Succeeded(batch(chunks[k], BatchOptions(true)))
    ensures FirstFailed(batch, chunks) == k
  {
    if k > 0 {
      FirstFailedIs(batch, chunks[1..], k - 1);
    }
  }

  /** All or nothing: the call resolves exactly when every chunk succeeds, and then every mutation was sent once, in order. */
  lemma BatchAllOrNothing<Row>(c: Client<Row>, mutations: seq<Mutation>, size: int,
                               r: Outcome<BatchRunResult>, dispatched: seq<BatchCall>)
    requires mutations != [] && size >= 1
    requires var chunks := Chunk(mutations, size);
      var k := FirstFailed(c.batch, chunks);
      && |dispatched| == (if k < |chunks| then k + 1 else |chunks|)
      && (forall i :: 0 <= i < |dispatched| ==> dispatched[i].chunk == chunks[i])
      && (k == |chunks| ==> r == Resolved(BatchRunResult(|chunks|)))
      && (k < |chunks| ==> r == ChunkFailure(c.batch(chunks[k], BatchOptions(true))))
    ensures r.Resolved? <==>
      forall i :: 0 <= i < |Chunk(mutations, size)| ==> Succeeded(c.batch(Chunk(mutations, size)[i], BatchOptions(true)))
    ensures r.Resolved? ==>
      r.value.numBatchMutations == (|mutations| + size - 1) / size
      && Concat(seq(|dispatched|, i requires 0 <= i < |dispatched| => dispatched[i].chunk)) == mutations
  {
    var chunks := Chunk(mutations, size);
    ChunkCount(mutations, size);
    ChunkLossless(mutations, size);
    if r.Resolved? {
      assert seq(|dispatched|, i requires 0 <= i < |dispatched| => dispatched[i].chunk) == chunks;
    }
  }

  // ---------------------------------------------------------------------------
  // executeQuery

  /**
    What the promise of `executeQuery` settles to when the events after
    `rows` have been accumulated are `events`: the first `end` resolves with
    every row read so far, the first error with a truthy value rejects, and
    nothing after the first of those changes it.
   */
  function Drain<Row>(events: seq<StreamEvent<Row>>, rows: seq<Row>): Outcome<seq<Row>>
  {
    if events == [] then Pending
    else match events[0]
      case Readable(buffered) => Drain(events[1..], rows + buffered)
      case Error(None) => Drain(events[1..], rows)
      case Error(Some(e)) => Rejected(e)
      case End => Resolved(rows)
  }

  /** The outcome of `executeQuery` for a request, from what the driver does with it. */
  function QueryOutcome<Row>(client: Option<Client<Row>>, request: Request): Outcome<seq<Row>>
  {
    match client
    case None => Rejected(TypeError("client.stream"))
    case Some(c) =>
      match c.stream(request)
      case StreamThrew(e) => Rejected(e)
      case Emits(events) => Drain(events, [])
  }

  /** Opens a row stream and drains every readable batch of rows into one array. */
  method ExecuteQuery<Row>(client: Option<Client<Row>>, query: string, params: seq<Value>, options: Option<QueryOptions>)
    returns (r: Outcome<seq<Row>>)
    ensures r == QueryOutcome(client, Request(query, params, options))
  {
    if client.None? {
      return Rejected(TypeError("client.stream"));
    }
    var reply := client.value.stream(Request(query, params, options));
    if reply.StreamThrew? {
      return Rejected(reply.exception);
    }
    var events := reply.events;
    var rows: seq<Row> := [];
    r := Pending;
    var i := 0;
    while i < |events|
      invariant 0 <= i <= |events|
      invariant r == Pending ==> Drain(events, []) == Drain(events[i..], rows)
      invariant r != Pending ==> r == Drain(events, [])
    {
      assert events[i..] == [events[i]] + events[i + 1..];
      match events[i] {
        case Readable(buffered) =>
          assert rows + buffered[0..] == rows + buffered;
          var j := 0;
          while j < |buffered|
            invariant 0 <= j <= |buffered|
            invariant r == Pending ==> Drain(events, []) == Drain(events[i + 1..], rows + buffered[j..])
          {
            assert rows + buffered[j..] == (rows + [buffered[j]]) + buffered[j + 1..];
            rows := rows + [buffered[j]];
            j := j + 1;
          }
          assert rows + buffered[|buffered|..] == rows;
        case Error(err) =>
          if err.Some? && r == Pending {
            r := Rejected(err.value);
          }
        case End =>
          if r == Pending {
            r := Resolved(rows);
          }
      }
      i := i + 1;
    }
  }

  /** Settles once: events that arrive after the promise has settled change nothing. */
  lemma {:induction false} SettledIsFinal<Row>(events: seq<StreamEvent<Row>>, more: seq<StreamEvent<Row>>, rows: seq<Row>)
    requires Drain(events, rows) != Pending
    ensures Drain(events + more, rows) == Drain(events, rows)
  {
    assert (events + more)[0] == events[0];
    assert (events + more)[1..] == events[1..] + more;
    match events[0]
    case Readable(buffered) => SettledIsFinal(events[1..], more, rows + buffered);
    case Error(None) => SettledIsFinal(events[1..], more, rows);
    case Error(Some(_)) =>
    case End =>
  }

  /** A stream event that settles the promise. */
  predicate Settles<Row>(e: StreamEvent<Row>)
  {
    e.End? || (e.Error? && e.err.Some?)
  }

  /** The rows a non-settling event adds to the accumulator. */
  function Added<Row>(e: StreamEvent<Row>): seq<Row>
  {
    if e.Readable? then e.buffered else []
  }

  /** Every row read, in order, across all readable events. */
  function RowsRead<Row>(events: seq<StreamEvent<Row>>): seq<Row>
  {
    if events == [] then [] else Added(events[0]) + RowsRead(events[1..])
  }

  /** One event that does not settle the promise only adds its rows. */
  lemma DrainStep<Row>(events: seq<StreamEvent<Row>>, rows: seq<Row>)
    requires events != [] && !Settles(events[0])
    ensures Drain(events, rows) == Drain(events[1..], rows + Added(events[0]))
  {
    match events[0]
    case Readable(_) =>
    case Error(_) => assert rows + [] == rows;
  }

  /** A stream that ends before any error resolves with every row read, in read order. */
  lemma {:induction false} EndGivesAllRows<Row>(events: seq<StreamEvent<Row>>, rest: seq<StreamEvent<Row>>, rows: seq<Row>)
    requires forall i :: 0 <= i < |events| ==> !Settles(events[i])
    ensures Drain(events + [End] + rest, rows) == Resolved(rows + RowsRead(events))
  {
    var tail := events + [End] + rest;
    if events == [] {
      assert tail[0] == End;
      assert rows + [] == rows;
    } else {
      var later := events[1..] + [End] + rest;
      assert tail == [events[0]] + later;
      DrainStep(tail, rows);
      assert forall i :: 0 <= i < |events[1..]| ==> events[1..][i] == events[i + 1];
      EndGivesAllRows(events[1..], rest, rows + Added(events[0]));
      assert RowsRead(events) == Added(events[0]) + RowsRead(events[1..]);
      assert rows + Added(events[0]) + RowsRead(events[1..]) == rows + RowsRead(events);
    }
  }

  /** A stream that fails before it ends rejects with that error; the rows already read are dropped. */
  lemma {:induction false} ErrorDiscardsRows<Row>(events: seq<StreamEvent<Row>>, e: Failure, rest: seq<StreamEvent<Row>>, rows: seq<Row>)
    requires forall i :: 0 <= i < |events| ==> !Settles(events[i])
    ensures Drain(events + [Error(Some(e))] + rest, rows) == Rejected(e)
  {
    var tail := events + [Error(Some(e))] + rest;
    if events == [] {
      assert tail[0] == Error(Some(e));
    } else {
      assert tail[0] == events[0];
      assert tail[1..] == events[1..] + [Error(Some(e))] + rest;
      DrainStep(tail, rows);
      ErrorDiscardsRows(events[1..], e, rest, rows + Added(events[0]));
    }
  }

  /**
    A query that returns no rows resolves to the empty array, not to an
    error, whatever empty batches or falsy errors come before its end.
   */
  lemma NoRowsResolvesEmpty<Row>(events: seq<StreamEvent<Row>>, rest: seq<StreamEvent<Row>>)
    requires forall i :: 0 <= i < |events| ==> !Settles(events[i])
    requires RowsRead(events) == []
    ensures Drain(events + [End] + rest, []) == Resolved([])
  {
    EndGivesAllRows(events, rest, []);
    assert [] + RowsRead(events) == [];
  }

  // ---------------------------------------------------------------------------
  // executeQueryWithPageState

  const DefaultPageSize := 15

  datatype PageResult<Row> = PageResult(pageState: Option<string>, rows: seq<Row>)

  /** Whether a caller-supplied fetch size counts as given: `fetchSize || 15` skips undefined and 0. */
  predicate GivenSize(fetchSize: Option<int>)
  {
    fetchSize.Some? && fetchSize.value != 0
  }

  /**
    Runs one page of a query: the options carry the fetch size (15 unless a
    non-zero one is given) and, only when it is truthy, the page state; the
    result is exactly the driver's page state and rows.
   */
  method ExecuteQueryWithPageState<Row>(client: Option<Client<Row>>, query: string, params: seq<Value>,
                                        pageState: Option<string>, fetchSize: Option<int>)
    returns (options: QueryOptions, r: Outcome<PageResult<Row>>)
    ensures options.fetchSize == if GivenSize(fetchSize) then fetchSize.value else 15
    ensures options.pageState == if Present(pageState) then pageState else None
    ensures client.None? ==> r == Rejected(TypeError("client.execute"))
    ensures client.Some? ==>
      match client.value.execute(Request(query, params, Some(options)))
      case Pending => r == Pending
      case Rejected(e) => r == Rejected(e)
      case Resolved(result) => r == Resolved(PageResult(result.pageState, result.rows))
  {
    options := QueryOptions(if GivenSize(fetchSize) then fetchSize.value else DefaultPageSize, None);
    if Present(pageState) {
      options := options.(pageState := pageState);
    }
    if client.None? {
      return options, Rejected(TypeError("client.execute"));
    }
    var reply := client.value.execute(Request(query, params, Some(options)));
    match reply
    case Pending => r := Pending;
    case Rejected(e) => r := Rejected(e);
    case Resolved(result) => r := Resolved(PageResult(result.pageState, result.rows));
  }

  // ---------------------------------------------------------------------------
  // intialize

  const WarmUpQuery := "select sitename from fortis.sitesettings limit 1"

  /** Warms the connection up by streaming one row of the site settings. */
  method Initialize<Row>(client: Option<Client<Row>>) returns (r: Outcome<seq<Row>>)
    ensures r == QueryOutcome(client, Request(WarmUpQuery, [], None))
  {
    r := ExecuteQuery(client, WarmUpQuery, [], None);
  }
}
