/**
 * The status and `resultado` selection of the `/generar` endpoint
 * (`generar_numeros`): it reads the three fields of the JSON body, converts
 * each with `int(...)` (a missing key counts as 0), calls the generator and
 * turns the outcome into one of three answers: "200" with the generated text,
 * "400" with an empty `resultado`, or "500" with an empty `resultado`.
 */
module Handler {
  import opened Wrappers
  import opened Text
  import opened Sorting
  import opened Sampler

  /** The outcome of Python's `int(...)` on one field value of the request. */
  datatype Coercion =
    | Int(n: int)
    | ValueOrTypeError             // caught by the handler's inner `except (ValueError, TypeError)`
    | OtherError(detail: string)   // any other exception, caught by the outer `except Exception`

  /** One of the three keys of the request object: absent, or present with a value. */
  datatype Field = Missing | Present(coerced: Coercion)

  /**
   * The request body: a JSON object with the three keys, or anything on which
   * `data.get` raises (no JSON, `null`, a list), with the exception's text.
   */
  datatype Body =
    | JsonObject(limiteinferior: Field, limitesuperior: Field, cantidad: Field)
    | NotAnObject(detail: string)

  /** The JSON answer (without `fechageneracion`) and the HTTP status sent with it. */
  datatype Response = Response(resultado: string, codigoStatus: string, mensajeError: string, httpStatus: int)

  /** The outcome of converting the three fields, in the order the handler converts them. */
  datatype Conversion =
    | Converted(inferior: int, superior: int, cantidad: int)
    | Invalid
    | Failed(detail: string)

  const MensajeDatosInvalidos: string := "Error 400: Los límites o la cantidad no son números válidos o están vacíos."
  const MensajeRangoInvalido: string := "Error 400: El límite inferior debe ser menor que el límite superior para generar números."
  const MensajeExito: string := "Operación completada exitosamente. Los números fueron generados y ordenados."
  const PrefijoFalloInterno: string := "Error 500: Fallo interno. Detalle: "

  /** `int(data.get(key, 0))`: a missing key is the integer 0. */
  function Coerce(f: Field): (c: Coercion)
    ensures f.Missing? ==> c == Int(0)
  {
    match f
    case Missing => Int(0)
    case Present(c) => c
  }

  /** The first outcome in `cs` that is not an integer, if any. */
  function FirstFailure(cs: seq<Coercion>): (f: Option<Coercion>)
    ensures f.None? <==> forall i :: 0 <= i < |cs| ==> cs[i].Int?
    ensures f.Some? ==> !f.value.Int? && exists i :: 0 <= i < |cs| && cs[i] == f.value && forall j :: 0 <= j < i ==> cs[j].Int?
  {
    if |cs| == 0 then None
    else if !cs[0].Int? then Some(cs[0])
    else
      var f := FirstFailure(cs[1..]);
      assert f.Some? ==> exists i :: 0 <= i < |cs[1..]| && cs[1..][i] == f.value && forall j :: 0 <= j < i ==> cs[1..][j].Int?;
      f
  }

  /** For three outcomes, the first failure is found by looking at them in order. */
  lemma FirstFailureOfThree(x: Coercion, y: Coercion, z: Coercion)
    ensures FirstFailure([x, y, z]) ==
      if !x.Int? then Some(x) else if !y.Int? then Some(y) else if !z.Int? then Some(z) else None
  {
    var cs := [x, y, z];
    assert cs[1..] == [y, z] && [y, z][1..] == [z] && [z][1..] == [];
    assert FirstFailure([z]) == if !z.Int? then Some(z) else None;
    assert FirstFailure([y, z]) == if !y.Int? then Some(y) else FirstFailure([z]);
  }

  /**
   * Converts `limiteinferior`, `limitesuperior` and `cantidad` in that order;
   * the first field that fails decides the kind of failure.
   */
  function Convert(a: Field, b: Field, c: Field): (r: Conversion)
    ensures r.Converted? <==> Coerce(a).Int? && Coerce(b).Int? && Coerce(c).Int?
    ensures r.Converted? ==> r.inferior == Coerce(a).n && r.superior == Coerce(b).n && r.cantidad == Coerce(c).n
    ensures r == Invalid <==> FirstFailure([Coerce(a), Coerce(b), Coerce(c)]) == Some(ValueOrTypeError)
    ensures r.Failed? ==> FirstFailure([Coerce(a), Coerce(b), Coerce(c)]) == Some(OtherError(r.detail))
    ensures (FirstFailure([Coerce(a), Coerce(b), Coerce(c)]).Some? &&
             FirstFailure([Coerce(a), Coerce(b), Coerce(c)]).value.OtherError?) ==> r.Failed?
  {
    FirstFailureOfThree(Coerce(a), Coerce(b), Coerce(c));
    match (Coerce(a), Coerce(b), Coerce(c))
    case (ValueOrTypeError, _, _) => Invalid
    case (OtherError(d), _, _) => Failed(d)
    case (Int(_), ValueOrTypeError, _) => Invalid
    case (Int(_), OtherError(d), _) => Failed(d)
    case (Int(_), Int(_), ValueOrTypeError) => Invalid
    case (Int(_), Int(_), OtherError(d)) => Failed(d)
    case (Int(x), Int(y), Int(z)) => Converted(x, y, z)
  }

  /** `drawn` is a possible outcome of the draw the generator makes for this body. */
  predicate DrawFor(body: Body, drawn: seq<int>) {
    body.JsonObject? ==>
      var conv := Convert(body.limiteinferior, body.limitesuperior, body.cantidad);
      conv.Converted? ==> SampleOracle(conv.inferior, conv.superior, conv.cantidad, drawn)
  }

  function InternalError(detail: string): (r: Response) {
    Response("", "500", PrefijoFalloInterno + detail, 500)
  }

  /**
   * `generar_numeros`: 500 when the body is not an object, a conversion raises
   * something other than ValueError or TypeError, or the generator raises; 400
   * when a field is not a number or the generator answers None; 200 with the
   * generator's text (possibly empty) otherwise.
   */
  function GenerarNumeros(body: Body, drawn: seq<int>): (r: Response)
    requires DrawFor(body, drawn)
    ensures r.codigoStatus == IntToString(r.httpStatus)
    ensures r.httpStatus == 200 || r.httpStatus == 400 || r.httpStatus == 500
    ensures r.httpStatus != 200 ==> r.resultado == ""
    ensures r.httpStatus == 500 <==>
      body.NotAnObject? ||
      var conv := Convert(body.limiteinferior, body.limitesuperior, body.cantidad);
      conv.Failed? ||
      (conv.Converted? && conv.inferior < conv.superior && MaxSize < conv.superior - conv.inferior + 1)
    ensures r.httpStatus == 200 <==>
      body.JsonObject? &&
      var conv := Convert(body.limiteinferior, body.limitesuperior, body.cantidad);
      conv.Converted? && conv.inferior < conv.superior && 0 <= conv.cantidad &&
      conv.superior - conv.inferior + 1 <= MaxSize
    ensures r.httpStatus == 200 ==>
      var conv := Convert(body.limiteinferior, body.limitesuperior, body.cantidad);
      ParseList(r.resultado).Some? &&
      var xs := ParseList(r.resultado).value;
      |xs| == (if conv.cantidad < conv.superior - conv.inferior + 1 then conv.cantidad else conv.superior - conv.inferior + 1) &&
      StrictlyAscending(xs) &&
      forall i :: 0 <= i < |xs| ==> conv.inferior <= xs[i] <= conv.superior
  {
    assert IntToString(200) == "200" && IntToString(400) == "400" && IntToString(500) == "500";
    match body
    case NotAnObject(detail) => InternalError(detail)
    case JsonObject(a, b, c) =>
      match Convert(a, b, c)
      case Failed(detail) => InternalError(detail)
      case Invalid => Response("", "400", MensajeDatosInvalidos, 400)
      case Converted(inferior, superior, cantidad) =>
        match GenerarNumerosAleatorios(inferior, superior, cantidad, drawn)
        case Raised(detail) => InternalError(detail)
        case ReturnedNone => Response("", "400", MensajeRangoInvalido, 400)
        case Returned(resultado) => Response(resultado, "200", MensajeExito, 200)
  }

  // ---------------------------------------------------------------- lemmas

  /** A field that `int(...)` rejects with ValueError or TypeError, reached before any other failure, is a 400 with an empty `resultado`. */
  lemma UnparsableFieldIs400(a: Field, b: Field, c: Field, drawn: seq<int>)
    requires FirstFailure([Coerce(a), Coerce(b), Coerce(c)]) == Some(ValueOrTypeError)
    ensures GenerarNumeros(JsonObject(a, b, c), drawn) == Response("", "400", MensajeDatosInvalidos, 400)
  {
  }

  /** Bounds that are not strictly ordered are a 400 with an empty `resultado`. */
  lemma InvalidRangeIs400(a: Field, b: Field, c: Field, drawn: seq<int>)
    requires Convert(a, b, c).Converted? && Convert(a, b, c).inferior >= Convert(a, b, c).superior
    ensures GenerarNumeros(JsonObject(a, b, c), drawn) == Response("", "400", MensajeRangoInvalido, 400)
  {
  }

  /**
   * A negative count is reported as the invalid-range 400, not as an empty
   * success; only a range too long for `len` turns it into a 500.
   */
  lemma NegativeCountIs400(a: Field, b: Field, c: Field, drawn: seq<int>)
    requires DrawFor(JsonObject(a, b, c), drawn)
    requires Convert(a, b, c).Converted? && Convert(a, b, c).cantidad < 0
    ensures
      var conv := Convert(a, b, c);
      GenerarNumeros(JsonObject(a, b, c), drawn) ==
        if conv.inferior < conv.superior && MaxSize < conv.superior - conv.inferior + 1
        then InternalError(OverflowDetail)
        else Response("", "400", MensajeRangoInvalido, 400)
  {
  }

  /** Whatever text the generator produces is sent back unchanged with a 200. */
  lemma SuccessCarriesGeneratedText(a: Field, b: Field, c: Field, drawn: seq<int>)
    requires DrawFor(JsonObject(a, b, c), drawn)
    requires Convert(a, b, c).Converted?
    requires
      var conv := Convert(a, b, c);
      GenerarNumerosAleatorios(conv.inferior, conv.superior, conv.cantidad, drawn).Returned?
    ensures
      var conv := Convert(a, b, c);
      GenerarNumeros(JsonObject(a, b, c), drawn) ==
        Response(GenerarNumerosAleatorios(conv.inferior, conv.superior, conv.cantidad, drawn).text, "200", MensajeExito, 200)
  {
  }

  /** A range with more than `MaxSize` values is a 500 whatever the count. */
  lemma OverflowingRangeIs500(a: Field, b: Field, c: Field, drawn: seq<int>)
    requires Convert(a, b, c).Converted?
    requires
      var conv := Convert(a, b, c);
      conv.inferior < conv.superior && MaxSize < conv.superior - conv.inferior + 1
    ensures GenerarNumeros(JsonObject(a, b, c), drawn) == InternalError(OverflowDetail)
  {
  }

  /** A field failing with another exception before any ValueError is a 500 carrying its text. */
  lemma OtherConversionErrorIs500(a: Field, b: Field, c: Field, detail: string, drawn: seq<int>)
    requires FirstFailure([Coerce(a), Coerce(b), Coerce(c)]) == Some(OtherError(detail))
    ensures GenerarNumeros(JsonObject(a, b, c), drawn) == InternalError(detail)
  {
  }

  /** An empty object reaches the generator as (0, 0, 0) and is an invalid range. */
  lemma EmptyBodyIs400(drawn: seq<int>)
    ensures GenerarNumeros(JsonObject(Missing, Missing, Missing), drawn) == Response("", "400", MensajeRangoInvalido, 400)
  {
  }

  /**
   * A zero count with valid bounds is a 200 whose `resultado` is empty,
   * unless the range is too long for `len`.
   */
  lemma ZeroCountIs200(inferior: int, superior: int, drawn: seq<int>)
    requires inferior < superior
    requires DrawFor(JsonObject(Present(Int(inferior)), Present(Int(superior)), Present(Int(0))), drawn)
    ensures GenerarNumeros(JsonObject(Present(Int(inferior)), Present(Int(superior)), Present(Int(0))), drawn) ==
      if MaxSize < superior - inferior + 1 then InternalError(OverflowDetail)
      else Response("", "200", MensajeExito, 200)
  {
  }

  /** {limiteinferior: 1, limitesuperior: 10, cantidad: 5}: five ascending values from 1..10. */
  lemma OneToTenFive(drawn: seq<int>)
    requires DrawFor(JsonObject(Present(Int(1)), Present(Int(10)), Present(Int(5))), drawn)
    ensures
      var r := GenerarNumeros(JsonObject(Present(Int(1)), Present(Int(10)), Present(Int(5))), drawn);
      r.codigoStatus == "200" && ParseList(r.resultado).Some? &&
      var xs := ParseList(r.resultado).value;
      |xs| == 5 && StrictlyAscending(xs) && forall i :: 0 <= i < 5 ==> 1 <= xs[i] <= 10
  {
  }

  /** {limiteinferior: 0, limitesuperior: 9223372036854775807, cantidad: 1} is a 500. */
  lemma WidestRangeIs500(drawn: seq<int>)
    ensures GenerarNumeros(JsonObject(Present(Int(0)), Present(Int(MaxSize)), Present(Int(1))), drawn).codigoStatus == "500"
  {
  }

  /** {limiteinferior: 10, limitesuperior: 5, cantidad: 2} is a 400. */
  lemma ReversedBoundsIs400(drawn: seq<int>)
    ensures GenerarNumeros(JsonObject(Present(Int(10)), Present(Int(5)), Present(Int(2))), drawn).codigoStatus == "400"
  {
  }
}
