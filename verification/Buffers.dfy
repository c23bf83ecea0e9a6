/** The growable queues, stacks and strings: arrays that behave like sequences. */
module Buffers {
  import opened Characters

  const INITIAL_SIZE: nat := 16
  const INT_MAX: nat := 0x7FFF_FFFF

  function InsertedAt<T>(s: seq<T>, i: nat, x: T): seq<T>
    requires i <= |s|
  {
    s[..i] + [x] + s[i..]
  }

  /** Moves elements to the front of their array. */
  method MoveDown<T>(a: array<T>, from: nat, n: nat)
    requires from + n <= a.Length
    modifies a
    ensures a[..n] == old(a[from..from + n])
  {
    for i := 0 to n
      invariant forall j | 0 <= j < i :: a[j] == old(a[from + j])
      invariant forall j | i <= j < a.Length :: a[j] == old(a[j])
    {
      a[i] := a[from + i];
    }
  }

  /** Moves elements up by one place. */
  method MoveUp<T>(a: array<T>, from: nat, to: nat)
    requires from <= to < a.Length
    modifies a
    ensures a[from + 1..to + 1] == old(a[from..to])
    ensures a[..from] == old(a[..from]) && a[to + 1..] == old(a[to + 1..])
  {
    for i := to downto from
      invariant forall j | i < j <= to :: a[j] == old(a[j - 1])
      invariant forall j | 0 <= j <= i || to < j < a.Length :: a[j] == old(a[j])
    {
      a[i + 1] := a[i];
    }
  }

  /** A copy in an array of twice the size. */
  method Doubled<T(0)>(a: array<T>) returns (b: array<T>)
    requires a.Length > 0
    ensures fresh(b) && b.Length == 2 * a.Length && b[..a.Length] == a[..]
  {
    b := new T[2 * a.Length];
    for i := 0 to a.Length
      invariant forall j | 0 <= j < i :: b[j] == a[j]
    {
      b[i] := a[i];
    }
  }

  class Queue<T(0)> {
    var data: array<T>
    var head: nat
    var tail: nat

    ghost predicate Valid()
      reads this
    {
      head <= tail <= data.Length && data.Length > 0
    }

    ghost function Contents(): seq<T>
      requires Valid()
      reads this, data
    {
      data[head..tail]
    }

    constructor ()
      ensures Valid() && fresh(data) && Contents() == []
    {
      data := new T[INITIAL_SIZE];
      head, tail := 0, 0;
    }

    /** Makes room behind the tail, by a bigger array or by moving the elements to the front. */
    method Extend()
      requires Valid()
      modifies this, data
      ensures Valid() && (data == old(data) || fresh(data)) && Contents() == old(Contents())
      ensures tail < data.Length
    {
      ghost var was := Contents();
      if head == 0 && tail == data.Length {
        var bigger := Doubled(data);
        data := bigger;
        assert data[..tail] == was;
      }
      if tail == data.Length {
        var n := tail - head;
        if head != tail {
          MoveDown(data, head, n);
        }
        tail, head := n, 0;
        assert data[..n] == was;
      }
    }

    method Enqueue(x: T)
      requires Valid()
      modifies this, data
      ensures Valid() && (data == old(data) || fresh(data)) && Contents() == old(Contents()) + [x]
    {
      if tail == data.Length {
        Extend();
      }
      data[tail] := x;
      tail := tail + 1;
    }

    method Dequeue() returns (x: T)
      requires Valid() && Contents() != []
      modifies this`head
      ensures Valid() && x == old(Contents())[0] && Contents() == old(Contents())[1..]
    {
      x := data[head];
      head := head + 1;
    }

    /** Inserts an element before the one at `index`. */
    method Insert(index: nat, x: T)
      requires Valid() && index <= |Contents()|
      modifies this, data
      ensures Valid() && (data == old(data) || fresh(data)) && Contents() == InsertedAt(old(Contents()), index, x)
    {
      if tail == data.Length {
        Extend();
      }
      ghost var before := data[..];
      var at := head + index;
      MoveUp(data, at, tail);
      ghost var moved := data[..];
      assert moved[..at] == before[..at] && moved[at + 1..tail + 1] == before[at..tail];
      data[at] := x;
      assert data[..] == moved[at := x];
      InsertsAt(before, moved, head, at, tail, x);
      tail := tail + 1;
    }
  }

  lemma InsertsAt<T>(before: seq<T>, moved: seq<T>, head: nat, at: nat, tail: nat, x: T)
    requires head <= at <= tail < |before| == |moved|
    requires moved[..at] == before[..at] && moved[at + 1..tail + 1] == before[at..tail]
    ensures moved[at := x][head..tail + 1] == InsertedAt(before[head..tail], at - head, x)
  {
    var after := moved[at := x];
    assert after[head..at] == moved[..at][head..] == before[..at][head..] == before[head..tail][..at - head];
    assert after[at + 1..tail + 1] == moved[at + 1..tail + 1] == before[head..tail][at - head..];
    assert after[head..tail + 1] == after[head..at] + [x] + after[at + 1..tail + 1];
  }

  // ---- Any mix of operations ----

  datatype Op<T> = Enqueue(x: T) | Dequeue | Insert(index: nat, x: T)

  predicate CanApply<T>(s: seq<T>, op: Op<T>) {
    (op.Dequeue? ==> s != []) && (op.Insert? ==> op.index <= |s|)
  }

  function Applied<T>(s: seq<T>, op: Op<T>): seq<T>
    requires CanApply(s, op)
  {
    match op
    case Enqueue(x) => s + [x]
    case Dequeue => s[1..]
    case Insert(index, x) => InsertedAt(s, index, x)
  }

  predicate CanApplyAll<T>(s: seq<T>, ops: seq<Op<T>>)
    decreases |ops|
  {
    ops != [] ==> CanApply(s, ops[0]) && CanApplyAll(Applied(s, ops[0]), ops[1..])
  }

  function AppliedAll<T>(s: seq<T>, ops: seq<Op<T>>): seq<T>
    requires CanApplyAll(s, ops)
    decreases |ops|
  {
    if ops == [] then s else AppliedAll(Applied(s, ops[0]), ops[1..])
  }

  /** After any operations the array queue holds what a sequence would. */
  method RunQueue<T(0)>(ops: seq<Op<T>>) returns (contents: seq<T>)
    requires CanApplyAll([], ops)
    ensures contents == AppliedAll([], ops)
  {
    var q := new Queue<T>();
    assert ops[0..] == ops;
    for i := 0 to |ops|
      invariant fresh(q) && fresh(q.data) && q.Valid() && CanApplyAll(q.Contents(), ops[i..])
      invariant AppliedAll(q.Contents(), ops[i..]) == AppliedAll([], ops)
    {
      assert ops[i..][1..] == ops[i + 1..];
      match ops[i] {
        case Enqueue(x) => q.Enqueue(x);
        case Dequeue =>
          var x := q.Dequeue();
        case Insert(index, x) => q.Insert(index, x);
      }
    }
    assert ops[|ops|..] == [];
    contents := q.data[q.head..q.tail];
  }

  // ---- Stacks ----

  class Stack<T(0)> {
    // The size of an element in bytes.
    const width: nat
    var data: array<T>
    var top: nat

    ghost predicate Valid()
      reads this
    {
      top <= data.Length && data.Length > 0
    }

    ghost function Contents(): seq<T>
      requires Valid()
      reads this, data
    {
      data[..top]
    }

    constructor (width: nat)
      ensures Valid() && fresh(data) && Contents() == [] && this.width == width
    {
      this.width := width;
      data := new T[INITIAL_SIZE];
      top := 0;
    }

    /** Doubles the array, unless it is as big as half the greatest integer. */
    method Push(x: T) returns (ok: bool)
      requires Valid()
      modifies this, data
      ensures Valid() && (data == old(data) || fresh(data))
      ensures ok <==> old(top) < old(data.Length) || old(data.Length) * width < INT_MAX / 2
      ensures Contents() == if ok then old(Contents()) + [x] else old(Contents())
    {
      if top == data.Length {
        if data.Length * width >= INT_MAX / 2 {
          return false;
        }
        var bigger := Doubled(data);
        data := bigger;
      }
      data[top] := x;
      top := top + 1;
      assert data[..top] == data[..top - 1] + [x];
      return true;
    }

    method Pop() returns (x: T)
      requires Valid() && Contents() != []
      modifies this`top
      ensures Valid() && old(Contents()) == Contents() + [x]
    {
      top := top - 1;
      x := data[top];
    }
  }

  // ---- Strings ----

  type Octet = n: nat | n < 256

  class StringBuffer {
    var data: array<Octet>
    var pointer: nat

    /** At least one place is left behind the pointer. */
    ghost predicate Sane()
      reads this
    {
      pointer < data.Length && data.Length >= INITIAL_SIZE
    }

    /** All that is behind the pointer is zero, so the string always ends with a NUL. */
    ghost predicate Valid()
      reads this, data
    {
      Sane() && forall i | pointer <= i < data.Length :: data[i] == 0
    }

    ghost function Contents(): seq<Octet>
      requires Sane()
      reads this, data
    {
      data[..pointer]
    }

    constructor ()
      ensures Valid() && fresh(data) && Contents() == []
    {
      data := new Octet[INITIAL_SIZE](i => 0);
      pointer := 0;
    }

    /** Doubles the buffer; the new half is zero. */
    method Extend()
      requires Valid()
      modifies this
      ensures Valid() && fresh(data) && data.Length == 2 * old(data.Length) && Contents() == old(Contents())
    {
      ghost var was := Contents();
      var bigger := new Octet[2 * data.Length](i => 0);
      for i := 0 to data.Length
        invariant data == old(data) && pointer == old(pointer) && data[..] == old(data[..])
        invariant forall j | 0 <= j < i :: bigger[j] == data[j]
        invariant forall j | i <= j < bigger.Length :: bigger[j] == 0
      {
        bigger[i] := data[i];
      }
      data := bigger;
      assert data[..pointer] == was;
    }

    /** Appends the octets of one character. */
    method Append(c: nat)
      requires Valid() && c <= 0x10FFFF
      modifies this, data
      ensures Valid() && (data == old(data) || fresh(data)) && Contents() == old(Contents()) + Utf8(c)
    {
      hide Utf8;
      if pointer + 5 >= data.Length {
        Extend();
      }
      var octets := Utf8(c);
      Copy(octets);
    }

    /** Copies octets behind the pointer, where they fit. */
    method Copy(octets: seq<Octet>)
      requires Valid() && pointer + |octets| < data.Length
      modifies this`pointer, data
      ensures Valid() && Contents() == old(Contents()) + octets
    {
      ghost var was := Contents();
      for i := 0 to |octets|
        invariant pointer == old(pointer) && data[..pointer] == was
        invariant data[pointer..pointer + i] == octets[..i]
        invariant forall j | pointer + i <= j < data.Length :: data[j] == 0
      {
        data[pointer + i] := octets[i];
        assert octets[..i + 1] == octets[..i] + [octets[i]];
        assert data[pointer..pointer + i + 1] == data[pointer..pointer + i] + [octets[i]];
      }
      pointer := pointer + |octets|;
      assert octets[..|octets|] == octets;
      assert data[..pointer] == was + octets;
    }

    /** Appends another string, which is then empty but not cleared. */
    method Join(other: StringBuffer)
      requires Valid() && other.Sane() && other != this && other.data != data
      modifies this, data, other`pointer
      ensures Valid() && (data == old(data) || fresh(data)) && Contents() == old(Contents()) + old(other.Contents())
      ensures other.Sane() && other.Contents() == [] && other.data == old(other.data)
    {
      ghost var was := Contents();
      ghost var others := other.Contents();
      if other.pointer == 0 {
        return;
      }
      while data.Length - pointer <= other.pointer
        invariant Valid() && (data == old(data) || fresh(data)) && Contents() == was
        invariant other.data == old(other.data) && other.pointer == old(other.pointer) && other.Sane()
        invariant other.data != data && other.Contents() == others
        decreases other.pointer + pointer - data.Length
      {
        Extend();
      }
      Copy(other.data[..other.pointer]);
      other.pointer := 0;
    }

    method Clear()
      requires Sane()
      modifies this`pointer, data
      ensures Valid() && Contents() == []
    {
      pointer := 0;
      for i := 0 to data.Length
        invariant pointer == 0 && forall j | 0 <= j < i :: data[j] == 0
      {
        data[i] := 0;
      }
    }
  }

  /** What the scanner does with a string and the white space it collects beside it. */
  datatype StringOp = AppendString(c: nat) | AppendSpace(c: nat) | JoinSpace | ClearString | ClearSpace

  datatype Strings = Strings(text: seq<Octet>, space: seq<Octet>)

  function AppliedString(s: Strings, op: StringOp): Strings
    requires CharacterFits(op)
  {
    match op
    case AppendString(c) => s.(text := s.text + Utf8(c))
    case AppendSpace(c) => s.(space := s.space + Utf8(c))
    case JoinSpace => Strings(s.text + s.space, [])
    case ClearString => s.(text := [])
    case ClearSpace => s.(space := [])
  }

  predicate CharacterFits(op: StringOp) {
    (op.AppendString? || op.AppendSpace?) ==> op.c <= 0x10FFFF
  }

  function AppliedStrings(s: Strings, ops: seq<StringOp>): Strings
    requires forall i | 0 <= i < |ops| :: CharacterFits(ops[i])
    decreases |ops|
  {
    if ops == [] then s else AppliedStrings(AppliedString(s, ops[0]), ops[1..])
  }

  /** After any operations the two buffers hold what sequences would, and all that is behind
      each string is zero, so that its end is marked. */
  method RunStrings(ops: seq<StringOp>) returns (strings: Strings, tails: Strings)
    requires forall i | 0 <= i < |ops| :: CharacterFits(ops[i])
    ensures strings == AppliedStrings(Strings([], []), ops)
    ensures tails.text != [] && tails.space != []
    ensures (forall i | 0 <= i < |tails.text| :: tails.text[i] == 0) && (forall i | 0 <= i < |tails.space| :: tails.space[i] == 0)
  {
    hide Utf8;
    var text := new StringBuffer();
    var space := new StringBuffer();
    assert ops[0..] == ops;
    for k := 0 to |ops|
      invariant fresh(text) && fresh(space) && fresh(text.data) && fresh(space.data) && text != space && text.data != space.data
      invariant text.Valid() && space.Valid()
      invariant AppliedStrings(Strings(text.Contents(), space.Contents()), ops[k..]) == AppliedStrings(Strings([], []), ops)
    {
      assert ops[k..][1..] == ops[k + 1..];
      StringStep(text, space, ops[k]);
    }
    assert ops[|ops|..] == [];
    strings := Strings(text.data[..text.pointer], space.data[..space.pointer]);
    tails := Strings(text.data[text.pointer..], space.data[space.pointer..]);
  }

  method StringStep(text: StringBuffer, space: StringBuffer, op: StringOp)
    requires text != space && text.data != space.data && text.Valid() && space.Valid() && CharacterFits(op)
    modifies text, text.data, space, space.data
    ensures text.Valid() && space.Valid() && text.data != space.data
    ensures (text.data == old(text.data) || fresh(text.data)) && (space.data == old(space.data) || fresh(space.data))
    ensures Strings(text.Contents(), space.Contents()) == AppliedString(old(Strings(text.Contents(), space.Contents())), op)
  {
    hide Utf8;
    match op {
      case AppendString(c) => text.Append(c);
      case AppendSpace(c) => space.Append(c);
      case JoinSpace =>
        text.Join(space);
        space.Clear();
      case ClearString => text.Clear();
      case ClearSpace => space.Clear();
    }
  }
}
