/** The two ends of a connection: the load generator's AddEntryTask and the BookieHandler. */
module Endpoints {
  import opened Bytes
  import opened Protocol
  import opened Codec
  import opened CodecHandlers
  import opened RateLimiter
  import opened LimiterRuns
  import J = JournalModel
  import opened JournalThread
  import StorageKey

  /** Entry ids count up from 0 in an int64; running out of them is not modelled. */
  type EntryId = x: int | 0 <= x < TWO_63

  // ---------------------------------------------------------------- client

  /** One AddEntryTask: what its thread has generated, the closures it has posted to the
      connection's event loop, and the keys of pendingRequests_. */
  datatype Client = Client(ledgerId: int64, payload: seq<byte>, generated: nat, closures: seq<EntryId>,
    pending: set<int>)

  function NewClient(ledgerId: int64, payload: seq<byte>): Client {
    Client(ledgerId, payload, 0, [], {})
  }

  function Generate(c: Client): Client
    requires c.generated < TWO_63
  {
    c.(generated := c.generated + 1, closures := c.closures + [c.generated])
  }

  function GenerateAll(c: Client, n: nat): (r: Client)
    requires c.generated + n <= TWO_63
    ensures r.generated == c.generated + n
  {
    if n == 0 then c else Generate(GenerateAll(c, n - 1))
  }

  function RequestFor(ledgerId: int64, payload: seq<byte>, entryId: EntryId): Request {
    Request(2, OP_ADD_ENTRY, ledgerId, entryId, 0, payload)
  }

  /** The closure writes the request, then records it. */
  function Send(c: Client): Client
    requires c.closures != []
  {
    c.(closures := c.closures[1..], pending := c.pending + {c.closures[0]})
  }

  /** What a response does: an error code ends the process, an unknown id dereferences the
      end of the map, and otherwise the entry is erased. */
  datatype Reaction = Exit | NotFound | Erased(client: Client)

  function React(c: Client, r: Response): Reaction {
    if r.errorCode != ERROR_OK then Exit
    else if r.entryId !in c.pending then NotFound
    else Erased(c.(pending := c.pending - {r.entryId}))
  }

  /** One permit for each entry, at the given clock readings. */
  function Paced(clock: seq<int>): (calls: seq<Call>)
    ensures |calls| == |clock|
  {
    seq(|clock|, i requires 0 <= i < |clock| => Call(clock[i], 1))
  }

  class AddEntryTask {
    const ledgerId: int64
    const payload: seq<byte>
    const rateLimiter: Limiter
    var entryIdGenerator: nat
    var closures: seq<EntryId>
    var pendingRequests: set<int>

    function State(): Client
      reads this
    {
      Client(ledgerId, payload, entryIdGenerator, closures, pendingRequests)
    }

    constructor (ledgerId: int64, payload: seq<byte>, rate: real)
      requires 0.0 < rate < MicrosPerSecond()
      ensures State() == NewClient(ledgerId, payload) && fresh(rateLimiter)
      ensures rateLimiter.Setup() == ConfigOf(rate) && rateLimiter.Setup().Valid()
        && rateLimiter.State() == RateLimiter.FRESH
    {
      this.ledgerId, this.payload := ledgerId, payload;
      rateLimiter := new Limiter(rate, 0);
      entryIdGenerator, closures, pendingRequests := 0, [], {};
    }

    /** One turn of the endless loop: the limiter lets it through at `grant`. */
    method Turn(now: int) returns (grant: int)
      requires rateLimiter.Setup().Valid() && entryIdGenerator < TWO_63
      modifies this`entryIdGenerator, this`closures, rateLimiter
      ensures State() == Generate(old(State()))
      ensures rateLimiter.State() == AfterCall(rateLimiter.Setup(), old(rateLimiter.State()), now, 1)
      ensures grant == Grant(rateLimiter.Setup(), old(rateLimiter.State()), now)
    {
      var wait := rateLimiter.Acquire(now, 1);
      grant := now + wait;
      var entryId: EntryId := entryIdGenerator;
      entryIdGenerator := entryIdGenerator + 1;
      closures := closures + [entryId];
    }

    /** As many turns as clock readings: the ids posted, and the instant of each. */
    method Start(clock: seq<int>) returns (grants: seq<int>)
      requires rateLimiter.Setup().Valid() && entryIdGenerator + |clock| <= TWO_63
      modifies this`entryIdGenerator, this`closures, rateLimiter
      ensures State() == GenerateAll(old(State()), |clock|)
      ensures rateLimiter.State() == After(rateLimiter.Setup(), old(rateLimiter.State()), Paced(clock))
      ensures |grants| == |clock|
      ensures forall i :: 0 <= i < |clock| ==>
        grants[i] == GrantOf(rateLimiter.Setup(), old(rateLimiter.State()), Paced(clock), i)
    {
      hide AfterCall, Grant, Generate;
      var n := 0;
      grants := [];
      assert Paced(clock)[..0] == [];
      while n < |clock|
        invariant n == |grants| <= |clock|
        invariant State() == GenerateAll(old(State()), n)
        invariant rateLimiter.State() == After(rateLimiter.Setup(), old(rateLimiter.State()), Paced(clock)[..n])
        invariant forall i :: 0 <= i < n ==>
          grants[i] == GrantOf(rateLimiter.Setup(), old(rateLimiter.State()), Paced(clock), i)
      {
        assert Paced(clock)[..n + 1][..n] == Paced(clock)[..n];
        var grant := Turn(clock[n]);
        grants := grants + [grant];
        n := n + 1;
      }
      assert Paced(clock)[..|clock|] == Paced(clock);
    }

    method SendNext() returns (buf: array<byte>, chain: seq<byte>)
      requires closures != [] && REQUEST_HEADER_SIZE + |payload| < TWO_32
      modifies this`closures, this`pendingRequests
      ensures State() == Send(old(State())) && fresh(buf) && buf.Length >= 28
      ensures buf[..] + chain == EncodeRequest(RequestFor(ledgerId, payload, old(closures)[0]), buf[8..28])
      ensures buf[4..8] == [2, 1, 0, 0] && chain == payload
    {
      hide EncodeRequest, BE32, HeaderBytes;
      var entryId := closures[0];
      closures := closures[1..];
      var request := Request(2, OP_ADD_ENTRY, ledgerId, entryId, 0, payload);
      buf, chain := ClientWrite(request);
      RequestBegins(buf[..], chain, request, buf[8..28]);
      pendingRequests := pendingRequests + {entryId};
    }

    method Read(r: Response) returns (reaction: Reaction)
      modifies this`pendingRequests
      ensures reaction == React(old(State()), r)
      ensures State() == if reaction.Erased? then reaction.client else old(State())
      ensures reaction == Exit <==> r.errorCode != 0
      ensures reaction == NotFound <==> r.errorCode == 0 && r.entryId !in old(pendingRequests)
      ensures pendingRequests == if r.errorCode == 0 then old(pendingRequests) - {r.entryId} else old(pendingRequests)
    {
      if r.errorCode != ERROR_OK {
        return Exit;
      }
      if r.entryId !in pendingRequests {
        return NotFound;
      }
      pendingRequests := pendingRequests - {r.entryId};
      return Erased(State());
    }
  }

  /** The generator's pace: whatever the clock shows, of the entries it posts those numbered i
      to j - 1 take at least as long as they are worth, less the burst. */
  lemma EntriesArePaced(c: Config, clock: seq<int>, i: nat, j: nat)
    requires c.Valid() && i <= j < |clock|
    ensures var grants := seq(|clock|, k requires 0 <= k < |clock| => GrantOf(c, RateLimiter.FRESH, Paced(clock), k));
      c.interval * (j - i) <= c.interval * c.burst + (grants[j] - grants[i])
  {
    OnePermitEach(clock, i, j);
    WindowRateBound(c, RateLimiter.FRESH, Paced(clock), i, j);
  }

  lemma {:induction false} OnePermitEach(clock: seq<int>, i: nat, j: nat)
    requires i <= j <= |clock|
    ensures Permits(Paced(clock), i, j) == j - i
    decreases j
  {
    if i < j {
      OnePermitEach(clock, i, j - 1);
    }
  }

  // ---------------------------------------------------------------- server

  /** What handleAddEntry's callbacks capture, with the promise they are attached to. */
  datatype Continuation = Continuation(promise: nat, ledgerId: int64, entryId: int64)

  /** Posted to the event loop: with a value, or with the exception of a broken promise. */
  datatype Posted = Posted(k: Continuation, ok: bool)

  /** The continuations of one connection: the one handleAddEntry has yet to attach, those
      waiting for their promise, and those posted. */
  datatype Handler = Handler(handling: Option<Continuation>, waiting: seq<Continuation>, posted: seq<Posted>)

  const IDLE_HANDLER := Handler(None, [], [])

  datatype Fate = Pending | Fulfilled | Broken

  function FateOf(j: J.State, p: nat): Fate {
    if p in j.acked then Fulfilled else if p in j.broken then Broken else Pending
  }

  /** Attaching to a settled promise posts at once. */
  function Attach(h: Handler, fate: Fate): Handler
    requires h.handling.Some?
  {
    var k := h.handling.value;
    match fate
    case Pending => Handler(None, h.waiting + [k], h.posted)
    case Fulfilled => Handler(None, h.waiting, h.posted + [Posted(k, true)])
    case Broken => Handler(None, h.waiting, h.posted + [Posted(k, false)])
  }

  /** Where promise p's continuation waits; |waiting| if it does not. */
  function Find(waiting: seq<Continuation>, p: nat): (i: nat)
    ensures i <= |waiting| && (i < |waiting| ==> waiting[i].promise == p)
    ensures forall j :: 0 <= j < i ==> waiting[j].promise != p
  {
    if waiting == [] || waiting[0].promise == p then 0 else 1 + Find(waiting[1..], p)
  }

  /** Settling a promise posts its continuation if it is attached. */
  function OnSettled(h: Handler, p: nat, ok: bool): Handler {
    var i := Find(h.waiting, p);
    if i == |h.waiting| then h
    else h.(waiting := h.waiting[..i] + h.waiting[i + 1..], posted := h.posted + [Posted(h.waiting[i], ok)])
  }

  /** Of the two continuations, the first answers OK and the second, on an exception, IOError. */
  function ResponseFor(k: Continuation, ok: bool): Response {
    Response(2, OP_ADD_ENTRY, if ok then ERROR_OK else ERROR_IO, k.ledgerId, k.entryId)
  }

  class BookieHandler {
    var handling: Option<Continuation>
    var waiting: seq<Continuation>
    var posted: seq<Posted>

    function State(): Handler
      reads this
    {
      Handler(handling, waiting, posted)
    }

    constructor ()
      ensures State() == IDLE_HANDLER
    {
      handling, waiting, posted := None, [], [];
    }

    /** handleAddEntry, up to the future that storage returns. */
    method HandleAddEntry(request: Request, storage: Storage)
      requires handling == None && storage.Valid()
      requires |storage.journalQueue| < storage.capacity && !storage.closed
      modifies this, storage
      ensures storage.Valid()
      ensures storage.s == J.Step(old(storage.s),
        J.Enqueue(J.Put(StorageKey.Key(request.ledgerId, request.entryId), request.data)))
      ensures State() == old(State()).(handling := Some(Continuation(|old(storage.s).accepted|, request.ledgerId,
        request.entryId)))
    {
      hide J.Inv;
      var promise := storage.Put(request.ledgerId, request.entryId, request.data);
      handling := Some(Continuation(promise, request.ledgerId, request.entryId));
    }

    /** The rest of it: `then` and `onError`. */
    method AttachContinuation(storage: Storage)
      requires handling.Some? && storage.Valid()
      modifies this
      ensures State() == Attach(old(State()), FateOf(storage.s, old(handling).value.promise))
    {
      var k := handling.value;
      if k.promise in storage.fulfilled {
        posted := posted + [Posted(k, true)];
      } else if k.promise in storage.broken {
        posted := posted + [Posted(k, false)];
      } else {
        waiting := waiting + [k];
      }
      handling := None;
    }

    /** Runs where the promise is fulfilled or destroyed. */
    method Settled(p: nat, ok: bool)
      modifies this
      ensures State() == OnSettled(old(State()), p, ok)
    {
      var i := 0;
      while i < |waiting| && waiting[i].promise != p
        invariant i <= |waiting| && State() == old(State())
        invariant Find(waiting, p) == i + Find(waiting[i..], p)
      {
        assert waiting[i..][1..] == waiting[i + 1..];
        i := i + 1;
      }
      if i < |waiting| {
        waiting, posted := waiting[..i] + waiting[i + 1..], posted + [Posted(waiting[i], ok)];
      }
    }

    /** The event loop runs a posted continuation, which writes its response. */
    method RunContinuation(i: nat) returns (buf: array<byte>)
      requires i < |posted|
      modifies this
      ensures State() == old(State()).(posted := old(posted)[..i] + old(posted)[i + 1..]) && fresh(buf)
        && buf.Length == 32
      ensures buf[..] == EncodeResponse(ResponseFor(old(posted)[i].k, old(posted)[i].ok), buf[28..])
      ensures buf[..8] == [0, 0, 0, 28, 2, 1, 0, 0]
    {
      hide EncodeResponse, BE32, HeaderBytes;
      var k, ok := posted[i].k, posted[i].ok;
      posted := posted[..i] + posted[i + 1..];
      if ok {
        buf := ServerWrite(Response(2, OP_ADD_ENTRY, ERROR_OK, k.ledgerId, k.entryId));
      } else {
        buf := ServerWrite(Response(2, OP_ADD_ENTRY, ERROR_IO, k.ledgerId, k.entryId));
      }
      ResponseBegins(buf[..], ResponseFor(k, ok), buf[28..]);
    }
  }
}
