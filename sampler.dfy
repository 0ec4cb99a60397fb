/**
 * The number generator `generar_numeros_aleatorios(inferior, superior, cantidad)`:
 * a range check, the clamping of the requested count to the size of the
 * inclusive range, a draw of that many distinct values from the range, and the
 * ascending, comma-joined rendering of the draw.
 *
 * The draw itself (`random.sample`) is not a function of its inputs. It is
 * modelled by the parameter `drawn`, the list the generator happened to pick;
 * the precondition says only that it is one of the lists `random.sample` may
 * return, so every contract here holds for every possible draw.
 */
module Sampler {
  import opened Wrappers
  import opened Text
  import opened Sorting

  /** Python's `range(start, stop)` as a list. */
  function PyRange(start: int, stop: int): (r: seq<int>)
    ensures |r| == if start < stop then stop - start else 0
    ensures forall i :: 0 <= i < |r| ==> r[i] == start + i
  {
    if start < stop then seq(stop - start, i => start + i) else []
  }

  /**
   * `sys.maxsize` of a 64-bit CPython: `len` of a range with more elements than
   * this raises OverflowError.
   */
  const MaxSize: int := 0x7fff_ffff_ffff_ffff

  /** The text CPython gives that OverflowError. */
  const OverflowDetail: string := "Python int too large to convert to C ssize_t"

  /** `drawn` is `k` values taken without replacement from `population`. */
  predicate IsSampleOf(drawn: seq<int>, population: seq<int>, k: int) {
    |drawn| == k && Distinct(drawn) && forall i :: 0 <= i < |drawn| ==> drawn[i] in population
  }

  /** What `random.sample` may return: only constrained when the call succeeds. */
  predicate DrawAllowed(population: seq<int>, k: int, drawn: seq<int>) {
    |population| <= MaxSize && 0 <= k <= |population| ==> IsSampleOf(drawn, population, k)
  }

  /** How a call of `random.sample` ends. */
  datatype SampleOutcome =
    | Sampled(values: seq<int>)
    | SampleValueError              // the count is negative or above the population size
    | SampleOverflowError           // `len(population)` does not fit in a C ssize_t

  /**
   * `random.sample(population, k)` over a population of distinct values. It
   * first takes `len(population)`, which raises OverflowError above `MaxSize`;
   * it then raises ValueError unless `0 <= k <= len(population)`.
   */
  function RandomSample(population: seq<int>, k: int, drawn: seq<int>): (r: SampleOutcome)
    requires DrawAllowed(population, k, drawn)
    ensures r.SampleOverflowError? <==> MaxSize < |population|
    ensures r.SampleValueError? <==> |population| <= MaxSize && (k < 0 || |population| < k)
    ensures r.Sampled? ==> |r.values| == k && Distinct(r.values)
    ensures r.Sampled? ==> forall i :: 0 <= i < |r.values| ==> r.values[i] in population
  {
    if MaxSize < |population| then SampleOverflowError
    else if k < 0 || |population| < k then SampleValueError
    else Sampled(drawn)
  }

  /** The number of values in the inclusive range `[inferior, superior]`. */
  function RangoDisponible(inferior: int, superior: int): (n: int)
    ensures inferior <= superior ==> n == |PyRange(inferior, superior + 1)|
    ensures inferior < superior ==> n >= 2
  {
    superior - inferior + 1
  }

  /** The requested count, lowered to the size of the range when it exceeds it. */
  function ClampedCount(inferior: int, superior: int, cantidad: int): (k: int)
    ensures k <= RangoDisponible(inferior, superior) && k <= cantidad
    ensures k == cantidad || k == RangoDisponible(inferior, superior)
  {
    if cantidad > RangoDisponible(inferior, superior) then RangoDisponible(inferior, superior) else cantidad
  }

  /** `drawn` is a possible outcome of the draw the generator makes for these inputs. */
  predicate SampleOracle(inferior: int, superior: int, cantidad: int, drawn: seq<int>) {
    inferior < superior ==>
      DrawAllowed(PyRange(inferior, superior + 1), ClampedCount(inferior, superior, cantidad), drawn)
  }

  /** How a call of `generar_numeros_aleatorios` ends. */
  datatype Generation =
    | Returned(text: string)        // the comma-joined numbers
    | ReturnedNone                  // `return None`
    | Raised(detail: string)        // an exception the generator does not catch

  /**
   * `generar_numeros_aleatorios`: None for an empty or one-point range and for
   * a negative count; an uncaught OverflowError when the range has more than
   * `MaxSize` values; otherwise the drawn values, sorted and comma-joined.
   */
  function GenerarNumerosAleatorios(inferior: int, superior: int, cantidad: int, drawn: seq<int>): (r: Generation)
    requires SampleOracle(inferior, superior, cantidad, drawn)
    ensures r.Raised? <==> inferior < superior && MaxSize < superior - inferior + 1
    ensures r.Raised? ==> r.detail == OverflowDetail
    ensures r.ReturnedNone? <==>
      inferior >= superior || (superior - inferior + 1 <= MaxSize && cantidad < 0)
    ensures r.Returned? ==>
      ParseList(r.text).Some? &&
      var xs := ParseList(r.text).value;
      |xs| == (if cantidad < superior - inferior + 1 then cantidad else superior - inferior + 1) &&
      StrictlyAscending(xs) &&
      (forall i :: 0 <= i < |xs| ==> inferior <= xs[i] <= superior) &&
      multiset(xs) == multiset(drawn)
  {
    if inferior >= superior then ReturnedNone
    else
      var k := ClampedCount(inferior, superior, cantidad);
      match RandomSample(PyRange(inferior, superior + 1), k, drawn)
      case SampleOverflowError => Raised(OverflowDetail)
      case SampleValueError => ReturnedNone
      case Sampled(numeros) =>
        RenderedDraw(numeros, inferior, superior, k);
        Returned(Render(Sort(numeros)))
  }

  // ---------------------------------------------------------------- lemmas

  /** The sorted, rendered draw reads back as the draw in strictly ascending order. */
  lemma RenderedDraw(numeros: seq<int>, inferior: int, superior: int, k: int)
    requires IsSampleOf(numeros, PyRange(inferior, superior + 1), k)
    ensures ParseList(Render(Sort(numeros))) == Some(Sort(numeros))
    ensures |Sort(numeros)| == k && StrictlyAscending(Sort(numeros))
    ensures forall i :: 0 <= i < k ==> inferior <= Sort(numeros)[i] <= superior
  {
    var xs := Sort(numeros);
    SortDistinct(numeros);
    ParseRender(xs);
    assert |xs| == |multiset(xs)| == |numeros|;
    forall i | 0 <= i < k ensures inferior <= xs[i] <= superior {
      assert xs[i] in multiset(numeros);
      assert xs[i] in PyRange(inferior, superior + 1);
    }
  }

  lemma {:induction false} LowerBoundAt(xs: seq<int>, lo: int, i: nat)
    requires StrictlyAscending(xs) && i < |xs|
    requires forall j :: 0 <= j < |xs| ==> lo <= xs[j]
    ensures lo + i <= xs[i]
  {
    if i > 0 {
      LowerBoundAt(xs, lo, i - 1);
    }
  }

  lemma {:induction false} UpperBoundAt(xs: seq<int>, hi: int, i: nat)
    requires StrictlyAscending(xs) && i < |xs|
    requires forall j :: 0 <= j < |xs| ==> xs[j] <= hi
    ensures xs[i] <= hi - (|xs| - 1 - i)
    decreases |xs| - i
  {
    if i < |xs| - 1 {
      UpperBoundAt(xs, hi, i + 1);
    }
  }

  /**
   * A strictly ascending list of `hi - lo + 1` values from `[lo, hi]` is the
   * whole range in order.
   */
  lemma FillsRange(xs: seq<int>, lo: int, hi: int)
    requires StrictlyAscending(xs) && |xs| == hi - lo + 1
    requires forall j :: 0 <= j < |xs| ==> lo <= xs[j] <= hi
    ensures xs == PyRange(lo, hi + 1)
  {
    forall i | 0 <= i < |xs| ensures xs[i] == lo + i {
      LowerBoundAt(xs, lo, i);
      UpperBoundAt(xs, hi, i);
    }
  }

  /**
   * A count at least as large as the range yields every integer from
   * `inferior` to `superior` in order, whatever was drawn; the only failure is
   * the OverflowError of a range longer than `MaxSize`.
   */
  lemma FullRangeWhenCountCoversRange(inferior: int, superior: int, cantidad: int, drawn: seq<int>)
    requires SampleOracle(inferior, superior, cantidad, drawn)
    requires inferior < superior && cantidad >= superior - inferior + 1
    ensures GenerarNumerosAleatorios(inferior, superior, cantidad, drawn) ==
      if MaxSize < superior - inferior + 1 then Raised(OverflowDetail)
      else Returned(Render(PyRange(inferior, superior + 1)))
  {
    var k := superior - inferior + 1;
    assert ClampedCount(inferior, superior, cantidad) == k;
    if k <= MaxSize {
      RenderedDraw(drawn, inferior, superior, k);
      FillsRange(Sort(drawn), inferior, superior);
    }
  }

  /**
   * A zero count is a success with the empty text, not the absence signal,
   * unless the range is too long for `len`.
   */
  lemma ZeroCountIsEmptyText(inferior: int, superior: int, drawn: seq<int>)
    requires SampleOracle(inferior, superior, 0, drawn)
    requires inferior < superior
    ensures GenerarNumerosAleatorios(inferior, superior, 0, drawn) ==
      if MaxSize < superior - inferior + 1 then Raised(OverflowDetail) else Returned("")
  {
  }

  /** Bounds 0 and `sys.maxsize` make `len` overflow, whatever the count. */
  lemma WidestRangeOverflows(cantidad: int, drawn: seq<int>)
    ensures GenerarNumerosAleatorios(0, MaxSize, cantidad, drawn) == Raised(OverflowDetail)
  {
  }

  lemma RenderOneToFive()
    ensures Render([1, 2, 3, 4, 5]) == "1,2,3,4,5"
  {
    var pieces := seq(5, i requires 0 <= i < 5 => IntToString([1, 2, 3, 4, 5][i]));
    assert IntToString(1) == "1" && IntToString(2) == "2" && IntToString(3) == "3";
    assert IntToString(4) == "4" && IntToString(5) == "5";
    assert pieces == ["1", "2", "3", "4", "5"];
    assert Join(pieces[4..]) == "5";
    assert Join(pieces[3..]) == "4,5";
    assert Join(pieces[2..]) == "3,4,5";
    assert Join(pieces[1..]) == "2,3,4,5";
    assert Join(pieces) == "1,2,3,4,5";
  }

  /** Asking for 100 values from 1..5 gives "1,2,3,4,5". */
  lemma OneToFiveClamped(drawn: seq<int>)
    requires SampleOracle(1, 5, 100, drawn)
    ensures GenerarNumerosAleatorios(1, 5, 100, drawn) == Returned("1,2,3,4,5")
  {
    FullRangeWhenCountCoversRange(1, 5, 100, drawn);
    assert PyRange(1, 6) == [1, 2, 3, 4, 5];
    RenderOneToFive();
  }
}
