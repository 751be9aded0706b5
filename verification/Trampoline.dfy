/** The Python binding's driver of one process: an explicit stack of generators, against the
    recursive reading in which each yielded generator is run to completion in place. */
module Trampolines {
  import opened Options

  /** Python's None, or any other object. */
  datatype Value = PyNone | Object(id: nat)

  /** What `send` on a generator gives: a yielded kernel request, a yielded generator, an object of
      another type, its return value, or an exception. */
  datatype Reply = Request(r: nat) | Subroutine(generator: nat) | Other(message: nat) | Return(value: Value) | Raise(error: nat)

  datatype Answer = Answer(value: Value) | Refused(error: nat)

  /** A kernel request issued, and the value the process was resumed with. */
  datatype Exchange = Exchange(request: nat, value: Value)

  /** The program, seen from the driver: `send` resumes a generator, `kernel` awaits a request (or
      refuses to build it). `W` is everything they share, generators and other processes included. */
  datatype Program<!W> = Program(send: (W, nat, Value) -> (W, Reply), kernel: (W, nat) -> (W, Answer))

  // ----- The recursive reading -----

  datatype Result<W> =
    | Finished(world: W, value: Value, trace: seq<Exchange>)
    | Failed(world: W, error: nat, trace: seq<Exchange>)
    | Unfinished

  /** Prepends what happened before. */
  function After<W>(trace: seq<Exchange>, r: Result<W>): Result<W> {
    match r
    case Finished(w, v, t) => Finished(w, v, trace + t)
    case Failed(w, e, t) => Failed(w, e, trace + t)
    case Unfinished => Unfinished
  }

  /** Sends `value` into `generator` and drives it to its end. */
  function Eval<W>(p: Program<W>, w: W, generator: nat, value: Value, fuel: nat): Result<W>
    decreases fuel
  {
    if fuel == 0 then Unfinished
    else
      var (w1, reply) := p.send(w, generator, value);
      match reply
      case Return(v) => Finished(w1, v, [])
      case Raise(e) => Failed(w1, e, [])
      case Other(m) => Failed(w1, m, [])
      case Request(r) =>
        (match p.kernel(w1, r)
         case (w2, Answer(v)) => After([Exchange(r, v)], Eval(p, w2, generator, v, fuel - 1))
         case (w2, Refused(e)) => Failed(w2, e, []))
      case Subroutine(g) =>
        match Eval(p, w1, g, PyNone, fuel - 1)
        case Finished(w2, v, t) => After(t, Eval(p, w2, generator, v, fuel - 1))
        case Failed(w2, e, t) => Failed(w2, e, t)
        case Unfinished => Unfinished
  }

  // ----- The driver, one turn of its loop at a time -----

  datatype Driver<W> = Driver(world: W, stack: seq<nat>, resume: Value, error: Option<nat>, trace: seq<Exchange>)

  predicate Stopped<W>(d: Driver<W>) {
    d.stack == [] || d.error.Some?
  }

  function Turn<W>(p: Program<W>, d: Driver<W>): Driver<W> {
    if Stopped(d) then d
    else
      var n := |d.stack| - 1;
      var (w1, reply) := p.send(d.world, d.stack[n], d.resume);
      var d1 := d.(world := w1);
      match reply
      case Return(v) => d1.(stack := d.stack[..n], resume := v)
      case Raise(e) => d1.(error := Some(e))
      case Other(m) => d1.(error := Some(m))
      case Request(r) =>
        (match p.kernel(w1, r)
         case (w2, Answer(v)) => d.(world := w2, resume := v, trace := d.trace + [Exchange(r, v)])
         case (w2, Refused(e)) => d.(world := w2, error := Some(e)))
      case Subroutine(g) => d1.(stack := d.stack + [g], resume := PyNone)
  }

  function Turns<W>(p: Program<W>, d: Driver<W>, n: nat): Driver<W>
    decreases n
  {
    if n == 0 then d else Turns(p, Turn(p, d), n - 1)
  }

  lemma {:induction false} TurnsAdd<W>(p: Program<W>, d: Driver<W>, m: nat, n: nat)
    ensures Turns(p, d, m + n) == Turns(p, Turns(p, d, m), n)
    decreases m
  {
    if m > 0 { TurnsAdd(p, Turn(p, d), m - 1, n); }
  }

  lemma {:induction false} StoppedStays<W>(p: Program<W>, d: Driver<W>, n: nat)
    requires Stopped(d)
    ensures Turns(p, d, n) == d
  {
    if n > 0 { StoppedStays(p, d, n - 1); }
  }

  /** The driver `d` has run the generator on top of `below` to its end `r`, and is now at `d'`. */
  ghost predicate Lands<W>(below: seq<nat>, d: Driver<W>, r: Result<W>, d': Driver<W>) {
    match r
    case Finished(w, v, t) => d' == Driver(w, below, v, None, d.trace + t)
    case Failed(w, e, t) => d'.world == w && d'.error == Some(e) && d'.trace == d.trace + t
    case Unfinished => false
  }

  // ----- The two readings agree -----

  lemma {:induction false} MoreFuel<W>(p: Program<W>, w: W, generator: nat, value: Value, fuel: nat, more: nat)
    requires fuel <= more && !Eval(p, w, generator, value, fuel).Unfinished?
    ensures Eval(p, w, generator, value, more) == Eval(p, w, generator, value, fuel)
    decreases fuel
  {
    var (w1, reply) := p.send(w, generator, value);
    match reply {
      case Request(r) =>
        match p.kernel(w1, r) {
          case (w2, Answer(v)) => MoreFuel(p, w2, generator, v, fuel - 1, more - 1);
          case (w2, Refused(_)) =>
        }
      case Subroutine(g) =>
        MoreFuel(p, w1, g, PyNone, fuel - 1, more - 1);
        match Eval(p, w1, g, PyNone, fuel - 1) {
          case Finished(w2, v, _) => MoreFuel(p, w2, generator, v, fuel - 1, more - 1);
          case Failed(_, _, _) =>
        }
      case _ =>
    }
  }

  /** Whatever the recursive reading of the top generator comes to, the driver comes to it too. */
  lemma {:induction false} DriverFollows<W>(p: Program<W>, d: Driver<W>, below: seq<nat>, generator: nat, fuel: nat)
    returns (n: nat)
    requires d.error.None? && d.stack == below + [generator]
    requires !Eval(p, d.world, generator, d.resume, fuel).Unfinished?
    ensures Lands(below, d, Eval(p, d.world, generator, d.resume, fuel), Turns(p, d, n))
    decreases fuel
  {
    var d1 := Turn(p, d);
    var (w1, reply) := p.send(d.world, generator, d.resume);
    assert d.stack[..|d.stack| - 1] == below && Turns(p, d, 1) == d1;
    match reply {
      case Request(r) =>
        match p.kernel(w1, r) {
          case (w2, Answer(v)) =>
            var m := DriverFollows(p, d1, below, generator, fuel - 1);
            Regroup(d.trace, [Exchange(r, v)], Eval(p, w2, generator, v, fuel - 1));
            n := m + 1;
          case (w2, Refused(_)) => n := 1;
        }
      case Subroutine(g) =>
        var k := DriverFollows(p, d1, d.stack, g, fuel - 1);
        match Eval(p, w1, g, PyNone, fuel - 1) {
          case Finished(w2, v, t) =>
            var d2 := Turns(p, d1, k);
            var m := DriverFollows(p, d2, below, generator, fuel - 1);
            TurnsAdd(p, d1, k, m);
            Regroup(d.trace, t, Eval(p, w2, generator, v, fuel - 1));
            n := k + m + 1;
          case Failed(_, _, _) => n := k + 1;
        }
      case _ => n := 1;
    }
  }

  lemma Regroup<W>(a: seq<Exchange>, b: seq<Exchange>, r: Result<W>)
    requires !r.Unfinished?
    ensures a + After(b, r).trace == (a + b) + r.trace
  {
  }

  lemma StopsLater<W>(p: Program<W>, d: Driver<W>, k: nat, n: nat)
    requires Stopped(Turns(p, d, n)) && !Stopped(Turns(p, d, k))
    ensures k < n && Stopped(Turns(p, Turns(p, d, k), n - k))
  {
    if k >= n {
      TurnsAdd(p, d, n, k - n);
      StoppedStays(p, Turns(p, d, n), k - n);
    } else {
      TurnsAdd(p, d, k, n - k);
    }
  }

  /** Where the driver is once the generator on top has finished, if it stops at all. */
  lemma Resumes<W>(p: Program<W>, d: Driver<W>, below: seq<nat>, generator: nat, n: nat) returns (k: nat)
    requires d.error.None? && d.stack == below + [generator] && below != []
    requires Eval(p, d.world, generator, d.resume, n).Finished? && Stopped(Turns(p, d, n))
    ensures var r := Eval(p, d.world, generator, d.resume, n);
            Turns(p, d, k) == Driver(r.world, below, r.value, None, d.trace + r.trace)
    ensures k < n && Stopped(Turns(p, Turns(p, d, k), n - k))
  {
    k := DriverFollows(p, d, below, generator, n);
    hide Turns, Eval;
    StopsLater(p, d, k, n);
  }

  /** If the driver stops, the recursive reading of its top generator comes to an end. */
  lemma {:induction false} EvalFinishes<W>(p: Program<W>, d: Driver<W>, below: seq<nat>, generator: nat, n: nat)
    requires d.error.None? && d.stack == below + [generator]
    requires Stopped(Turns(p, d, n))
    ensures !Eval(p, d.world, generator, d.resume, n).Unfinished?
    decreases n, 1
  {
    var (w1, reply) := p.send(d.world, generator, d.resume);
    match reply {
      case Request(r) =>
        match p.kernel(w1, r) {
          case (w2, Answer(_)) => EvalFinishes(p, Turn(p, d), below, generator, n - 1);
          case (w2, Refused(_)) =>
        }
      case Subroutine(g) => SubroutineFinishes(p, d, below, generator, w1, g, n);
      case _ =>
    }
  }

  lemma {:induction false} SubroutineFinishes<W>(p: Program<W>, d: Driver<W>, below: seq<nat>, generator: nat,
                                                 w1: W, g: nat, n: nat)
    requires d.error.None? && d.stack == below + [generator]
    requires Stopped(Turns(p, d, n)) && p.send(d.world, generator, d.resume) == (w1, Subroutine(g))
    ensures !Eval(p, d.world, generator, d.resume, n).Unfinished?
    decreases n, 0
  {
    var d1 := Turn(p, d);
    assert d1 == Driver(w1, d.stack + [g], PyNone, None, d.trace) && Turns(p, d, n) == Turns(p, d1, n - 1);
    hide Turns, Turn;
    EvalFinishes(p, d1, d.stack, g, n - 1);
    if Eval(p, w1, g, PyNone, n - 1).Finished? {
      var k := Resumes(p, d1, d.stack, g, n - 1);
      var d2 := Turns(p, d1, k);
      EvalFinishes(p, d2, below, generator, n - 1 - k);
      MoreFuel(p, d2.world, generator, d2.resume, n - 1 - k, n - 1);
    }
  }

  function Start<W>(w: W, process: nat): Driver<W> {
    Driver(w, [process], PyNone, None, [])
  }

  ghost predicate Evaluates<W>(p: Program<W>, w: W, process: nat, r: Result<W>) {
    !r.Unfinished? && exists fuel: nat :: Eval(p, w, process, PyNone, fuel) == r
  }

  ghost predicate Drives<W>(p: Program<W>, w: W, process: nat, d: Driver<W>) {
    Stopped(d) && exists n: nat :: Turns(p, Start(w, process), n) == d
  }

  /** The explicit stack preserves meaning, whatever the nesting: the driver stops just when the
      recursive reading comes to an end, having issued the same requests with the same resume
      values, with the same return value or the same error, in the same world. */
  lemma DriverMeansEval<W>(p: Program<W>, w: W, process: nat, d: Driver<W>)
    ensures Drives(p, w, process, d) ==>
              Evaluates(p, w, process, match d.error case None => Finished(d.world, d.resume, d.trace)
                                                     case Some(e) => Failed(d.world, e, d.trace))
  {
    if Drives(p, w, process, d) {
      var s := Start(w, process);
      var n: nat :| Turns(p, s, n) == d;
      EvalFinishes(p, s, [], process, n);
      var r := Eval(p, w, process, PyNone, n);
      var m := DriverFollows(p, s, [], process, n);
      StopsOnce(p, s, m, n);
      assert s.trace + r.trace == r.trace;
    }
  }

  lemma EvalMeansDriver<W>(p: Program<W>, w: W, process: nat, r: Result<W>)
    requires Evaluates(p, w, process, r)
    ensures exists d :: Drives(p, w, process, d) && d.world == r.world && d.trace == r.trace &&
                        (match r case Finished(_, v, _) => d.error.None? && d.stack == [] && d.resume == v
                                 case Failed(_, e, _) => d.error == Some(e))
  {
    var fuel: nat :| Eval(p, w, process, PyNone, fuel) == r;
    var s := Start(w, process);
    var n := DriverFollows(p, s, [], process, fuel);
    assert s.trace + r.trace == r.trace;
    assert Drives(p, w, process, Turns(p, s, n));
  }

  lemma StopsOnce<W>(p: Program<W>, d: Driver<W>, m: nat, n: nat)
    requires Stopped(Turns(p, d, m)) && Stopped(Turns(p, d, n))
    ensures Turns(p, d, m) == Turns(p, d, n)
  {
    var (lo, hi) := if m <= n then (m, n) else (n, m);
    TurnsAdd(p, d, lo, hi - lo);
    StoppedStays(p, Turns(p, d, lo), hi - lo);
  }

  /** The loop as written: a stack, the value to send next, and an error slot. It stops with what
      the recursive reading says, or had not stopped after `fuel` turns. */
  method Drive<W>(p: Program<W>, w0: W, process: nat, fuel: nat)
    returns (w: W, value: Value, error: Option<nat>, trace: seq<Exchange>, stopped: bool)
    ensures stopped ==>
              Evaluates(p, w0, process, match error case None => Finished(w, value, trace)
                                                    case Some(e) => Failed(w, e, trace))
    ensures !stopped ==> !Stopped(Turns(p, Start(w0, process), fuel))
  {
    w, error, trace := w0, None, [];
    var stack := [process];
    var resume: Option<Value> := None;
    var turns := 0;
    while |stack| > 0 && error.None? && turns < fuel
      invariant turns <= fuel
      invariant Turns(p, Start(w0, process), turns) == Driver(w, stack, Sent(resume), error, trace)
      decreases fuel - turns
    {
      ghost var before := Driver(w, stack, Sent(resume), error, trace);
      var top := stack[|stack| - 1];
      var (w1, reply) := p.send(w, top, Sent(resume));
      w := w1;
      match reply {
        case Return(v) =>
          stack := stack[..|stack| - 1];
          resume := Some(v);
        case Raise(e) =>
          error := Some(e);
        case Other(m) =>
          error := Some(m);
        case Subroutine(g) =>
          stack := stack + [g];
          resume := None;
        case Request(r) =>
          var (w2, answer) := p.kernel(w, r);
          w := w2;
          match answer {
            case Answer(v) =>
              trace := trace + [Exchange(r, v)];
              resume := if v.PyNone? then None else Some(v);
            case Refused(e) =>
              error := Some(e);
          }
      }
      TurnsAdd(p, Start(w0, process), turns, 1);
      assert Turns(p, before, 1) == Turn(p, before);
      turns := turns + 1;
    }
    value := Sent(resume);
    stopped := |stack| == 0 || error.Some?;
    if stopped {
      DriverMeansEval(p, w0, process, Driver(w, stack, value, error, trace));
    }
  }

  /** `None` is sent where there is nothing to resume with. */
  function Sent(resume: Option<Value>): Value {
    match resume case None => PyNone case Some(v) => v
  }
}
