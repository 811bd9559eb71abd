/** The demo task list and its filter for completed tasks with even ids. */
module ToDos {

  datatype ToDo = ToDo(toDoId: int, toDoTitle: string, toDoStatus: bool)

  /** The remainder of Swift's `%` on integers: truncated toward zero, so it
      takes the sign of the dividend. */
  function TruncatedRemainder(a: int, b: int): (r: int)
    requires b > 0
    ensures a >= 0 ==> 0 <= r < b
    ensures a < 0 ==> -b < r <= 0
  {
    if a >= 0 then a % b else -((-a) % b)
  }

  /** The quotient of Swift's `/` on integers: truncated toward zero. */
  function TruncatedQuotient(a: int, b: int): int
    requires b > 0
  {
    if a >= 0 then a / b else -((-a) / b)
  }

  /** Swift's division identity: quotient times divisor plus remainder gives
      back the dividend, which fixes the remainder's value. */
  lemma TruncatedDivision(a: int, b: int)
    requires b > 0
    ensures a == TruncatedQuotient(a, b) * b + TruncatedRemainder(a, b)
  {
  }

  /** The filter's condition: an even id and a completed status. Dafny's `%`
      rounds differently from Swift's on negative ids, but both give remainder
      zero for exactly the even ids. */
  function IsCompletedEven(t: ToDo): (keep: bool)
    ensures keep <==> TruncatedRemainder(t.toDoId, 2) == 0 && t.toDoStatus == true
  {
    t.toDoId % 2 == 0 && t.toDoStatus
  }

  const SampleToDos: seq<ToDo> := [
    ToDo(1, "TestSet 1 - Day 1", false),
    ToDo(2, "TestSet 2 - Day 2", true),
    ToDo(3, "TestSet 1 - Day 3", false),
    ToDo(4, "TestSet 2 - Day 4", true),
    ToDo(5, "TestSet 1 - Day 5", true),
    ToDo(6, "TestSet 2 - Day 6", true),
    ToDo(7, "TestSet 1 - Day 7", false),
    ToDo(8, "TestSet 2 - Day 8", false),
    ToDo(9, "TestSet 1 - Day 9", true),
    ToDo(10, "TestSet 2 - Day 10", true)
  ]

  /** Keeps, in order, the tasks that are completed and have an even id. */
  function FilterCompletedEvenToDos(toDos: seq<ToDo>): (r: seq<ToDo>)
    ensures |r| <= |toDos|
    ensures forall t :: t in r <==> t in toDos && IsCompletedEven(t)
  {
    if toDos == [] then []
    else if IsCompletedEven(toDos[0]) then [toDos[0]] + FilterCompletedEvenToDos(toDos[1..])
    else FilterCompletedEvenToDos(toDos[1..])
  }

  /** xs occurs in ys in order, each element unchanged (possibly with gaps). */
  predicate IsSubsequence<T(==)>(xs: seq<T>, ys: seq<T>)
    decreases |ys|
  {
    if xs == [] then true
    else if ys == [] then false
    else if xs[0] == ys[0] then IsSubsequence(xs[1..], ys[1..])
    else IsSubsequence(xs, ys[1..])
  }

  /** The result keeps the input's elements unchanged and in their relative order. */
  lemma {:induction false} FilterIsSubsequence(toDos: seq<ToDo>)
    ensures IsSubsequence(FilterCompletedEvenToDos(toDos), toDos)
  {
    if toDos != [] {
      FilterIsSubsequence(toDos[1..]);
    }
  }

  /** Filtering a filtered list changes nothing. */
  lemma {:induction false} FilterIdempotent(toDos: seq<ToDo>)
    ensures FilterCompletedEvenToDos(FilterCompletedEvenToDos(toDos)) == FilterCompletedEvenToDos(toDos)
  {
    if toDos != [] {
      FilterIdempotent(toDos[1..]);
      var rest := FilterCompletedEvenToDos(toDos[1..]);
      if IsCompletedEven(toDos[0]) {
        assert ([toDos[0]] + rest)[1..] == rest;
      }
    }
  }

  /** The filter of a concatenation is the concatenation of the filters. */
  lemma {:induction false} FilterDistributesOverConcat(xs: seq<ToDo>, ys: seq<ToDo>)
    ensures FilterCompletedEvenToDos(xs + ys) == FilterCompletedEvenToDos(xs) + FilterCompletedEvenToDos(ys)
  {
    if xs == [] {
      assert xs + ys == ys;
    } else {
      assert (xs + ys)[0] == xs[0];
      assert (xs + ys)[1..] == xs[1..] + ys;
      FilterDistributesOverConcat(xs[1..], ys);
    }
  }

  /** One step of the filter: the head is kept exactly when it qualifies. */
  lemma FilterCons(head: ToDo, tail: seq<ToDo>)
    ensures FilterCompletedEvenToDos([head] + tail) ==
              (if IsCompletedEven(head) then [head] else []) + FilterCompletedEvenToDos(tail)
  {
  }

  /** The filter of a suffix, one step at a time. */
  lemma FilterStep(xs: seq<ToDo>, k: nat)
    requires k < |xs|
    ensures FilterCompletedEvenToDos(xs[k..]) ==
              (if IsCompletedEven(xs[k]) then [xs[k]] else []) + FilterCompletedEvenToDos(xs[k + 1..])
  {
    assert xs[k..] == [xs[k]] + xs[k + 1..];
    FilterCons(xs[k], xs[k + 1..]);
  }

  /** Ten items of which only the second, fourth, sixth and tenth qualify, as in
      the sample, filter to exactly those four. */
  lemma FilterOfSamplePattern(xs: seq<ToDo>)
    requires |xs| == 10
    requires !IsCompletedEven(xs[0]) && IsCompletedEven(xs[1]) && !IsCompletedEven(xs[2]) && IsCompletedEven(xs[3]) && !IsCompletedEven(xs[4])
    requires IsCompletedEven(xs[5]) && !IsCompletedEven(xs[6]) && !IsCompletedEven(xs[7]) && !IsCompletedEven(xs[8]) && IsCompletedEven(xs[9])
    ensures FilterCompletedEvenToDos(xs) == [xs[1], xs[3], xs[5], xs[9]]
  {
    FilterStep(xs, 9);
    var f9 := FilterCompletedEvenToDos(xs[9..]);
    assert f9 == [xs[9]] + [];
    FilterStep(xs, 8);
    var f8 := FilterCompletedEvenToDos(xs[8..]);
    assert f8 == f9;
    FilterStep(xs, 7);
    var f7 := FilterCompletedEvenToDos(xs[7..]);
    assert f7 == f8;
    FilterStep(xs, 6);
    var f6 := FilterCompletedEvenToDos(xs[6..]);
    assert f6 == f7;
    FilterStep(xs, 5);
    var f5 := FilterCompletedEvenToDos(xs[5..]);
    assert f5 == [xs[5]] + f6;
    FilterStep(xs, 4);
    var f4 := FilterCompletedEvenToDos(xs[4..]);
    assert f4 == f5;
    FilterStep(xs, 3);
    var f3 := FilterCompletedEvenToDos(xs[3..]);
    assert f3 == [xs[3]] + f4;
    FilterStep(xs, 2);
    var f2 := FilterCompletedEvenToDos(xs[2..]);
    assert f2 == f3;
    FilterStep(xs, 1);
    var f1 := FilterCompletedEvenToDos(xs[1..]);
    assert f1 == [xs[1]] + f2;
    FilterStep(xs, 0);
    var f0 := FilterCompletedEvenToDos(xs[0..]);
    assert f0 == f1;
    assert xs[0..] == xs;
    FourElements(xs[1], xs[3], xs[5], xs[9]);
  }

  /** Kept apart from the lemma above: proved there, among the filter's
      membership facts, this step runs out of resource. */
  lemma FourElements<T>(a: T, b: T, c: T, d: T)
    ensures [a] + ([b] + ([c] + ([d] + []))) == [a, b, c, d]
  {
  }

  /** On the sample list the result is the tasks with ids 2, 4, 6 and 10, in that order. */
  lemma SampleResult()
    ensures FilterCompletedEvenToDos(SampleToDos) == [SampleToDos[1], SampleToDos[3], SampleToDos[5], SampleToDos[9]]
    ensures |FilterCompletedEvenToDos(SampleToDos)| == 4
    ensures FilterCompletedEvenToDos(SampleToDos)[0].toDoId == 2
    ensures FilterCompletedEvenToDos(SampleToDos)[1].toDoId == 4
    ensures FilterCompletedEvenToDos(SampleToDos)[2].toDoId == 6
    ensures FilterCompletedEvenToDos(SampleToDos)[3].toDoId == 10
  {
    var s := SampleToDos;
    assert |s| == 10 && s[1].toDoId == 2 && s[3].toDoId == 4 && s[5].toDoId == 6 && s[9].toDoId == 10;
    FilterOfSamplePattern(s);
  }

  /** The list the program computes from the sample at start-up. */
  const CompletedEvenToDos: seq<ToDo> := FilterCompletedEvenToDos(SampleToDos)
}
