/** What a store is for, seen from one subscriber: a first-in first-out line with a mode.
    A queue is either running, and then only its head may be out with a worker, or
    suspended, and then nothing may be taken and the front may be cut off. */
module Queues {
  import opened Deliveries

  datatype Stamp = Stamp(owner: string, generation: nat)

  datatype Queue = Queue(
    line: seq<string>,      // ids that wait, in sequence order
    issued: nat,         // sequences handed out
    tries: int,             // attempts made on the head
    holder: Option<Stamp>,  // who has the head out
    suspended: bool,
    dropped: nat,           // cut off since the last reopening
    reported: nat,          // cut off and reported by earlier reopenings
    done: nat)              // delivered or dead-lettered
  {
    /** The sequence of the head; everything below it has left the line. */
    function Front(): int {
      issued - |line| + 1
    }

    /** Conservation, and the strict separation of the two modes. */
    ghost predicate Sound() {
      && issued == |line| + done + dropped + reported
      && (line == [] ==> tries == 0 && holder == None)
      && (suspended ==> tries == 0 && holder == None)
      && (!suspended ==> dropped == 0)
    }

    function StatusAt(i: nat): Status {
      if suspended then Retained
      else if i == 0 && holder.Some? then InFlight
      else Pending
    }

    predicate Allows(m: Move) {
      match m
      case Stay => true
      case Push(_) => true
      case Take(_) => !suspended && line != [] && holder == None
      case Pop => holder.Some?
      case PutBack(_) => holder.Some?
      case Release => holder.Some?
      case Close => holder.Some?
      case Cut(n) => n == 0 || (suspended && n <= |line|)
      case Open => true
    }

    function After(m: Move): Queue
      requires Sound() && Allows(m)
    {
      match m
      case Stay => this
      case Push(id) => this.(line := line + [id], issued := issued + 1)
      case Take(stamp) => this.(holder := Some(stamp), tries := tries + 1)
      case Pop => this.(line := line[1..], tries := 0, holder := None, done := done + 1)
      case PutBack(attempt) => this.(tries := attempt, holder := None)
      case Release => this.(holder := None)
      case Close => this.(line := line[1..], tries := 0, holder := None, done := done + 1, suspended := true)
      case Cut(n) => if n == 0 then this else this.(line := line[n..], dropped := dropped + n)
      case Open => this.(suspended := false, dropped := 0, reported := reported + dropped)
    }
  }

  datatype Move =
    | Stay
    | Push(id: string)
    | Take(stamp: Stamp)
    | Pop
    | PutBack(attempt: int)
    | Release
    | Close
    | Cut(n: nat)
    | Open

  const NEW := Queue([], 0, 0, None, false, 0, 0, 0)

  /** Every move keeps the queue sound, and the front only moves forward:
      one step past a finished head, `n` steps past a cut, not at all otherwise. */
  lemma MoveKeepsSound(q: Queue, m: Move)
    requires q.Sound() && q.Allows(m)
    ensures q.After(m).Sound()
    ensures q.After(m).Front() ==
            q.Front() + (match m case Pop => 1 case Close => 1 case Cut(n) => n case _ => 0)
  {
  }
}
