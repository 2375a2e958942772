/** Writers that may take less than they are given, and writing to them in full. */
module Output {

  /** What a writer answers to one Write: it took up to n elements, failed after
      n, or claims more than it was given. */
  datatype Answer = Took(n: nat) | Fails(n: nat) | Overclaims

  predicate Reliable(script: seq<Answer>) {
    forall i :: 0 <= i < |script| ==> script[i].Took? && script[i].n > 0
  }

  /** An arbitrary writer: it follows a script and then takes everything. */
  class Destination<T> {
    var received: seq<T>
    var script: seq<Answer>

    constructor (script: seq<Answer>)
      ensures received == [] && this.script == script
    {
      received, this.script := [], script;
    }

    method Write(value: seq<T>) returns (written: int, failed: bool, ghost taken: nat)
      modifies this
      ensures taken <= |value| && received == old(received) + value[..taken]
      ensures !failed && written <= |value| ==> taken == written
      ensures Reliable(old(script)) ==>
              Reliable(script) && !failed && written <= |value| && (|value| > 0 ==> written > 0)
    {
      var answer := Took(|value|);
      if |script| > 0 {
        answer, script := script[0], script[1..];
      } else if |value| == 0 {
        answer := Took(1);
      }
      if answer.Overclaims? {
        assert received == received + value[..0];
        return |value| + 1, false, 0;
      }
      var n := if answer.n > |value| then |value| else answer.n;
      received := received + value[..n];
      return n, answer.Fails?, n;
    }
  }

  /** Repeats short writes until everything is taken, or reports an error; `done`
      is how much was taken. */
  method WriteAll<T>(destination: Destination<T>, value: seq<T>) returns (ok: bool, ghost done: nat)
    modifies destination
    ensures done <= |value| && destination.received == old(destination.received) + value[..done]
    ensures ok ==> done == |value| && destination.received == old(destination.received) + value
    ensures Reliable(old(destination.script)) ==> ok && Reliable(destination.script)
  {
    var rest := value;
    done := 0;
    while |rest| > 0
      invariant done <= |value| && rest == value[done..]
      invariant destination.received == old(destination.received) + value[..done]
      invariant Reliable(old(destination.script)) ==> Reliable(destination.script)
      decreases |rest|
    {
      ghost var taken;
      var written, failed;
      written, failed, taken := destination.Write(rest);
      assert value[..done] + rest[..taken] == value[..done + taken];
      done := done + taken;
      if failed || written <= 0 || written > |rest| {
        return false, done;
      }
      rest := rest[written..];
    }
    assert value[..done] == value;
    return true, done;
  }
}
