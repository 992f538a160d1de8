/** The generators' sources of nondeterminism, made explicit.

    Python's module-level `random` state, the `lorem` text generator and the
    PID provider behind `Generator.create_pid` become one `Source` of three
    oracles and a `Cursor` that says how much of each has been used. Every
    `randint`, `random.choice`, `randrange` or lorem call takes the next
    number or text; every `create_pid` takes the next identifier. */
module Random {
  import opened Base

  datatype Source = Source(number: nat -> nat, text: nat -> string, pid: nat -> Pid)

  /** How many random draws have been made and how many PIDs minted. */
  datatype Cursor = Cursor(draws: nat, minted: nat)

  /** A drawn value together with the cursor after the draw. */
  datatype Drawn<+T> = Drawn(value: T, next: Cursor)

  /** The PID provider never hands out the same identifier twice. */
  ghost predicate FreshSupply(src: Source) {
    forall i: nat, j: nat :: i != j ==> src.pid(i) != src.pid(j)
  }

  function Skip(c: Cursor, k: nat): Cursor {
    Cursor(c.draws + k, c.minted)
  }

  /** `randint(lo, hi)`; Python raises ValueError when `lo > hi`, so callers
      whose bounds can cross check them first. */
  function RandInt(src: Source, c: Cursor, lo: int, hi: int): (r: Drawn<int>)
    requires lo <= hi
    ensures lo <= r.value <= hi
    ensures r.next == Skip(c, 1)
  {
    Drawn(lo + src.number(c.draws) % (hi - lo + 1), Skip(c, 1))
  }

  /** `random.randrange(n)`; ValueError when `n <= 0` is the caller's check. */
  function RandRange(src: Source, c: Cursor, n: int): (r: Drawn<int>)
    requires n > 0
    ensures 0 <= r.value < n
    ensures r.next == Skip(c, 1)
  {
    RandInt(src, c, 0, n - 1)
  }

  /** `random.choice(xs)`; IndexError on an empty list is the caller's check. */
  function Choice<T>(src: Source, c: Cursor, xs: seq<T>): (r: Drawn<T>)
    requires |xs| > 0
    ensures r.value in xs
    ensures r.next == Skip(c, 1)
  {
    Drawn(xs[src.number(c.draws) % |xs|], Skip(c, 1))
  }

  /** `lorem.sentence()` / `lorem.text()`: an opaque piece of text. */
  function Sentence(src: Source, c: Cursor): (r: Drawn<string>)
    ensures r.next == Skip(c, 1)
  {
    Drawn(src.text(c.draws), Skip(c, 1))
  }

  /** `Generator.create_pid()`: the next identifier of the supply. */
  function CreatePid(src: Source, c: Cursor): (r: Drawn<Pid>)
    ensures r.value == src.pid(c.minted)
    ensures r.next == Cursor(c.draws, c.minted + 1)
  {
    Drawn(src.pid(c.minted), Cursor(c.draws, c.minted + 1))
  }

  /** `random.sample(pop, k)`: k elements taken from distinct positions of
      `pop`, one draw each (`SampleDistinct`); a full-size sample is a
      shuffle of `pop` (`ShuffleCovers`). Python raises ValueError when
      `k > |pop|`, which callers check first. */
  function Sample<T>(src: Source, c: Cursor, pop: seq<T>, k: nat): (r: Drawn<seq<T>>)
    requires k <= |pop|
    ensures |r.value| == k
    ensures forall j :: 0 <= j < k ==> r.value[j] in pop
    ensures r.next == Skip(c, k)
    decreases k
  {
    if k == 0 then Drawn([], c)
    else
      var i := src.number(c.draws) % |pop|;
      var rest := Sample(src, Skip(c, 1), pop[..i] + pop[i + 1..], k - 1);
      Drawn([pop[i]] + rest.value, rest.next)
  }

  /** A sample takes each element at most as often as the population holds
      it: the positions drawn are distinct. */
  lemma {:induction false} SampleSubMultiset<T>(src: Source, c: Cursor, pop: seq<T>, k: nat)
    requires k <= |pop|
    ensures multiset(Sample(src, c, pop, k).value) <= multiset(pop)
    decreases k
  {
    if k > 0 {
      var i := src.number(c.draws) % |pop|;
      var rest := pop[..i] + pop[i + 1..];
      SampleSubMultiset(src, Skip(c, 1), rest, k - 1);
      assert pop == pop[..i] + [pop[i]] + pop[i + 1..];
    }
  }

  /** A sample of a duplicate-free population is duplicate-free. */
  lemma {:induction false} SampleDistinct<T>(src: Source, c: Cursor, pop: seq<T>, k: nat)
    requires k <= |pop|
    ensures Distinct(pop) ==> Distinct(Sample(src, c, pop, k).value)
    decreases k
  {
    if k > 0 && Distinct(pop) {
      var i := src.number(c.draws) % |pop|;
      var rest := pop[..i] + pop[i + 1..];
      DistinctRemove(pop, i);
      SampleDistinct(src, Skip(c, 1), rest, k - 1);
    }
  }

  /** A full-size sample contains every element of the population. */
  lemma {:induction false} ShuffleCovers<T>(src: Source, c: Cursor, pop: seq<T>, x: T)
    requires x in pop
    ensures x in Sample(src, c, pop, |pop|).value
    decreases |pop|
  {
    var i := src.number(c.draws) % |pop|;
    var rest := pop[..i] + pop[i + 1..];
    if x != pop[i] {
      var j :| 0 <= j < |pop| && pop[j] == x;
      assert x == rest[if j < i then j else j - 1];
      ShuffleCovers(src, Skip(c, 1), rest, x);
    }
  }

  /** A full-size sample is a shuffle: it holds every element of the
      population. */
  lemma ShuffleCoversAll<T>(src: Source, c: Cursor, pop: seq<T>)
    ensures forall x :: x in pop ==> x in Sample(src, c, pop, |pop|).value
  {
    forall x | x in pop ensures x in Sample(src, c, pop, |pop|).value {
      ShuffleCovers(src, c, pop, x);
    }
  }
}
