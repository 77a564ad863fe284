/**
 What the upgrade transaction rests on: the exclusive maintenance lock with its short wait, and the atomic write.
 */
module Maintenance {
  import opened Basics

  /** One try: is the lock free, has the deadline passed, is there an upgrade journal? */
  datatype Try = Try(free: bool, late: bool, journal: bool)

  /** The try that decides: the first one that finds the lock free, the deadline passed or a journal. */
  predicate Decisive(t: Try) {
    t.free || t.late || t.journal
  }

  /** The lock is taken exactly when some try finds it free before any other gives up. */
  method MaintenanceLock(tries: seq<Try>) returns (taken: bool, used: nat)
    requires exists i :: 0 <= i < |tries| && Decisive(tries[i])
    ensures used < |tries| && Decisive(tries[used]) && taken == tries[used].free
    ensures forall i :: 0 <= i < used ==> !Decisive(tries[i])
  {
    used := 0;
    while true
      invariant used < |tries| && (forall i :: 0 <= i < used ==> !Decisive(tries[i]))
      decreases |tries| - used
    {
      if tries[used].free {
        return true, used;
      }
      if tries[used].late || tries[used].journal {
        return false, used;
      }
      used := used + 1;
    }
  }

  datatype File = Missing | Holds(content: seq<int>)

  /** One directory entry and the temporary file beside it, as `left` more operations leave them. */
  class PrivateFile {
    var file: File
    var temporary: File
    var alive: bool
    var left: nat

    constructor (file: File, left: nat)
      ensures this.file == file && this.left == left && temporary == Missing && alive
    {
      this.file, this.left, temporary, alive := file, left, Missing, true;
    }

    method Operation()
      requires alive
      modifies this`alive, this`left
      ensures alive <==> old(left) > 0
      ensures left == if alive then old(left) - 1 else 0
    {
      if left == 0 {
        alive := false;
      } else {
        left := left - 1;
      }
    }

    /** Whenever the process dies, the file has its old content or all of the new one. */
    method PrivateWrite(content: seq<int>)
      requires alive
      modifies this
      ensures file == old(file) || file == Holds(content)
      ensures alive <==> old(left) >= |content| + 2
      ensures alive ==> file == Holds(content) && temporary == Missing
    {
      Operation();
      if !alive {
        return;
      }
      temporary := Holds([]);
      var i := 0;
      while i < |content|
        invariant 0 <= i <= |content| && alive && file == old(file) && temporary == Holds(content[..i])
        invariant old(left) == left + i + 1
      {
        Operation();
        if !alive {
          return;
        }
        temporary := Holds(temporary.content + [content[i]]);
        assert content[..i + 1] == content[..i] + [content[i]];
        i := i + 1;
      }
      Operation();
      if !alive {
        return;
      }
      assert content[..i] == content;
      file, temporary := temporary, Missing;
    }
  }
}
