/**
 * A procedure route segment `ENTRY.PROCEDURE.EXIT` (for example
 * `BETHL.GRNPA1.KLAS`): the string-shape predicates that tell procedure,
 * direct and hold route strings apart, and the RouteModel object that holds
 * the three upper-cased names of a procedure segment.
 */
module Route {
  import opened Wrappers
  import opened Strings
  import Seqs

  /** Marks a fix at which the aircraft should enter a holding pattern (`@COWBY`). */
  const HOLD_SEGMENT_SYMBOL: char := '@'

  /** Divides the pieces of a route segment. */
  const SEGMENT_SEPARATION_SYMBOL: char := '.'

  /** A procedure route string has exactly this many pieces. */
  const MAXIMUM_ROUTE_SEGMENT_LENGTH: nat := 3

  /** The error the constructor raises for a string that is not a procedure route string. */
  datatype RouteError = InvalidRouteCode(routeCode: string)

  /** The first three pieces of a route code; a piece past the end of the split is undefined. */
  datatype SegmentNames = SegmentNames(entry: Option<string>, base: Option<string>, exit: Option<string>)

  /** A name as RouteModel stores it: upper-cased and free of separators. */
  predicate IsSegmentName(name: string) {
    SEGMENT_SEPARATION_SYMBOL !in name && ToUpper(name) == name
  }

  /** The canonical string of a segment, as the `routeCode` getter builds it. */
  function RouteCodeOf(entry: string, procedure: string, exit: string): string {
    entry + [SEGMENT_SEPARATION_SYMBOL] + procedure + [SEGMENT_SEPARATION_SYMBOL] + exit
  }

  /** The route code is the three names joined by the separator. */
  lemma RouteCodeIsJoin(entry: string, procedure: string, exit: string)
    ensures RouteCodeOf(entry, procedure, exit) == Join([entry, procedure, exit], SEGMENT_SEPARATION_SYMBOL)
  {
    var sep := [SEGMENT_SEPARATION_SYMBOL];
    var rest := [procedure, exit];
    assert [entry, procedure, exit][1..] == rest;
    assert rest[1..] == [exit];
    assert Join([exit], SEGMENT_SEPARATION_SYMBOL) == exit;
    assert Join(rest, SEGMENT_SEPARATION_SYMBOL) == procedure + sep + exit;
    assert entry + sep + (procedure + sep + exit) == entry + sep + procedure + sep + exit;
  }

  /** Separator-free names are read back from their route code unchanged. */
  lemma RouteCodeSplits(entry: string, procedure: string, exit: string)
    ensures SEGMENT_SEPARATION_SYMBOL !in entry && SEGMENT_SEPARATION_SYMBOL !in procedure && SEGMENT_SEPARATION_SYMBOL !in exit
      ==> Split(RouteCodeOf(entry, procedure, exit), SEGMENT_SEPARATION_SYMBOL) == [entry, procedure, exit]
  {
    if SEGMENT_SEPARATION_SYMBOL !in entry && SEGMENT_SEPARATION_SYMBOL !in procedure && SEGMENT_SEPARATION_SYMBOL !in exit {
      RouteCodeIsJoin(entry, procedure, exit);
      SplitJoin([entry, procedure, exit], SEGMENT_SEPARATION_SYMBOL);
    }
  }

  /** JavaScript array read: the element at i, or undefined past the end. */
  function PieceAt(pieces: seq<string>, i: nat): Option<string> {
    if i < |pieces| then Some(pieces[i]) else None
  }

  /**
   * `_extractSegmentNamesFromRouteCode`: the pieces 0, 1 and 2 of the split.
   * The entry is always present; the base is present iff the code holds a
   * separator, the exit iff it holds two; no present name holds a separator.
   */
  function ExtractSegmentNames(routeCode: string): (names: SegmentNames)
    ensures names.entry.Some?
    ensures names.base.Some? <==> Occurrences(routeCode, SEGMENT_SEPARATION_SYMBOL) >= 1
    ensures names.exit.Some? <==> Occurrences(routeCode, SEGMENT_SEPARATION_SYMBOL) >= 2
    ensures names.entry.Some? ==> SEGMENT_SEPARATION_SYMBOL !in names.entry.value
    ensures names.base.Some? ==> SEGMENT_SEPARATION_SYMBOL !in names.base.value
    ensures names.exit.Some? ==> SEGMENT_SEPARATION_SYMBOL !in names.exit.value
  {
    var routeSegments := Split(routeCode, SEGMENT_SEPARATION_SYMBOL);
    SegmentNames(PieceAt(routeSegments, 0), PieceAt(routeSegments, 1), PieceAt(routeSegments, 2))
  }

  /**
   * A procedure segment held as three upper-cased names. The constructor of
   * the source (validation, field defaults, `_init`) is `New`; `reset`
   * clears all three names.
   */
  class RouteModel {
    var entry: string
    var procedure: string
    var exit: string

    /** Every name is upper-cased and separator-free; construction and `reset` keep this. */
    ghost predicate Valid()
      reads this
    {
      IsSegmentName(entry) && IsSegmentName(procedure) && IsSegmentName(exit)
    }

    /** The field defaults: all three names empty. */
    constructor ()
      ensures entry == "" && procedure == "" && exit == ""
      ensures Valid()
    {
      entry := "";
      procedure := "";
      exit := "";
    }

    /**
     * The constructor: raises InvalidRouteCode, creating nothing, unless the
     * code is a procedure route string; otherwise a new model holding the
     * upper-cased pieces, whose route code is the upper-cased input.
     */
    static method New(routeCode: string) returns (res: Result<RouteModel, RouteError>)
      ensures res.Failure? <==> !IsProcedureRouteString(routeCode)
      ensures res.Failure? ==> res.error == InvalidRouteCode(routeCode)
      ensures res.Success? ==>
        var pieces := Split(routeCode, SEGMENT_SEPARATION_SYMBOL);
        && fresh(res.value)
        && res.value.Valid()
        && res.value.entry == ToUpper(pieces[0])
        && res.value.procedure == ToUpper(pieces[1])
        && res.value.exit == ToUpper(pieces[2])
        && res.value.procedure != ""
        && res.value.RouteCode() == ToUpper(routeCode)
    {
      if !IsProcedureRouteString(routeCode) {
        return Failure(InvalidRouteCode(routeCode));
      }
      var model := new RouteModel();
      model.Init(routeCode);
      ProcedureRouteStringShape(routeCode);
      UpperRouteCode(routeCode);
      return Success(model);
    }

    /**
     * `_init`: stores the upper-cased pieces 0, 1 and 2. Upper-casing a
     * missing piece throws in the source; its only caller has validated the
     * code first, so the model asks for three pieces.
     */
    method Init(routeCode: string)
      requires ExtractSegmentNames(routeCode).exit.Some?
      modifies this
      ensures var names := ExtractSegmentNames(routeCode);
        && entry == ToUpper(names.entry.value)
        && procedure == ToUpper(names.base.value)
        && exit == ToUpper(names.exit.value)
      ensures Valid()
    {
      var names := ExtractSegmentNames(routeCode);
      entry := ToUpper(names.entry.value);
      procedure := ToUpper(names.base.value);
      exit := ToUpper(names.exit.value);
      UpperIsSegmentName(names.entry.value);
      UpperIsSegmentName(names.base.value);
      UpperIsSegmentName(names.exit.value);
    }

    /** `reset`: all three names empty again, so the route code is `..`. */
    method Reset()
      modifies this
      ensures entry == "" && procedure == "" && exit == ""
      ensures Valid()
      ensures RouteCode() == ".."
    {
      entry := "";
      procedure := "";
      exit := "";
    }

    /** The `routeCode` getter; on a valid model it splits back into the three names. */
    function RouteCode(): (code: string)
      reads this
      ensures Valid() ==> Split(code, SEGMENT_SEPARATION_SYMBOL) == [entry, procedure, exit]
    {
      RouteCodeSplits(entry, procedure, exit);
      RouteCodeOf(entry, procedure, exit)
    }

    /**
     * `isProcedureRouteString`: exactly three pieces and a non-empty middle
     * piece (an empty middle piece marks a direct route string such as `A..B`).
     */
    static function IsProcedureRouteString(routeString: string): (r: bool)
      ensures r <==> (Occurrences(routeString, SEGMENT_SEPARATION_SYMBOL) == 2
                      && Split(routeString, SEGMENT_SEPARATION_SYMBOL)[1] != "")
    {
      var elements := Split(routeString, SEGMENT_SEPARATION_SYMBOL);
      var hasRightNumberOfElements := |elements| == MAXIMUM_ROUTE_SEGMENT_LENGTH;
      var isDirectRouteSegment := |elements| > 1 && elements[1] == "";
      hasRightNumberOfElements && !isDirectRouteSegment
    }

    /** `isHoldRouteString`: the hold symbol occurs somewhere, not necessarily first. */
    static function IsHoldRouteString(routeString: string): (r: bool)
      ensures r <==> HOLD_SEGMENT_SYMBOL in routeString
    {
      Seqs.IndexOf(routeString, HOLD_SEGMENT_SYMBOL) != -1
    }
  }

  /** Upper-casing a separator-free piece gives a segment name. */
  lemma UpperIsSegmentName(piece: string)
    requires SEGMENT_SEPARATION_SYMBOL !in piece
    ensures IsSegmentName(ToUpper(piece))
  {
    ToUpperKeepsNonLetters(piece, SEGMENT_SEPARATION_SYMBOL);
    ToUpperIdempotent(piece);
  }

  /**
   * One direction of the shape: a procedure route string is three
   * separator-free pieces, the middle one non-empty, joined by two separators.
   */
  lemma ProcedureRouteStringShape(s: string)
    requires RouteModel.IsProcedureRouteString(s)
    ensures var p := Split(s, SEGMENT_SEPARATION_SYMBOL);
      && |p| == 3
      && Occurrences(s, SEGMENT_SEPARATION_SYMBOL) == 2
      && p[1] != ""
      && s == RouteCodeOf(p[0], p[1], p[2])
  {
    var p := Split(s, SEGMENT_SEPARATION_SYMBOL);
    JoinSplit(s, SEGMENT_SEPARATION_SYMBOL);
    RouteCodeIsJoin(p[0], p[1], p[2]);
    assert p == [p[0], p[1], p[2]];
  }

  /**
   * The other direction: any three separator-free pieces with a non-empty
   * middle, joined by the separator, form a procedure route string that
   * splits back into them. Empty entry or exit pieces are accepted.
   */
  lemma ProcedureRouteStringOfPieces(entry: string, procedure: string, exit: string)
    requires SEGMENT_SEPARATION_SYMBOL !in entry && SEGMENT_SEPARATION_SYMBOL !in procedure && SEGMENT_SEPARATION_SYMBOL !in exit
    requires procedure != ""
    ensures RouteModel.IsProcedureRouteString(RouteCodeOf(entry, procedure, exit))
    ensures Split(RouteCodeOf(entry, procedure, exit), SEGMENT_SEPARATION_SYMBOL) == [entry, procedure, exit]
  {
    RouteCodeSplits(entry, procedure, exit);
  }

  /** A direct route string `A..B` (empty middle piece) is not a procedure route string. */
  lemma DirectRouteStringIsNotProcedure(entry: string, exit: string)
    requires SEGMENT_SEPARATION_SYMBOL !in entry && SEGMENT_SEPARATION_SYMBOL !in exit
    ensures !RouteModel.IsProcedureRouteString(RouteCodeOf(entry, "", exit))
  {
    RouteCodeSplits(entry, "", exit);
  }

  /** A string with other than two separators is not a procedure route string. */
  lemma WrongSeparatorCountIsNotProcedure(s: string)
    requires Occurrences(s, SEGMENT_SEPARATION_SYMBOL) != 2
    ensures !RouteModel.IsProcedureRouteString(s)
  {
  }

  /** The route code of the upper-cased pieces of a procedure route string is the upper-cased string. */
  lemma UpperRouteCode(s: string)
    requires RouteModel.IsProcedureRouteString(s)
    ensures var p := Split(s, SEGMENT_SEPARATION_SYMBOL);
      RouteCodeOf(ToUpper(p[0]), ToUpper(p[1]), ToUpper(p[2])) == ToUpper(s)
  {
    var p := Split(s, SEGMENT_SEPARATION_SYMBOL);
    ProcedureRouteStringShape(s);
    ToUpperRouteCode(p[0], p[1], p[2]);
  }

  /** Upper-casing a route code upper-cases each name and keeps the separators. */
  lemma ToUpperRouteCode(entry: string, procedure: string, exit: string)
    ensures ToUpper(RouteCodeOf(entry, procedure, exit)) == RouteCodeOf(ToUpper(entry), ToUpper(procedure), ToUpper(exit))
  {
    var sep := [SEGMENT_SEPARATION_SYMBOL];
    ToUpperConcat(entry + sep + procedure + sep, exit);
    ToUpperConcat(entry + sep + procedure, sep);
    ToUpperConcat(entry + sep, procedure);
    ToUpperConcat(entry, sep);
    assert ToUpper(sep) == sep;
  }

  /**
   * Round trip: the route code of a constructed model (non-empty procedure,
   * upper-cased separator-free names) is again a procedure route string, and
   * parsing it again yields the same entry, procedure and exit.
   */
  lemma RouteCodeReparses(entry: string, procedure: string, exit: string)
    requires IsSegmentName(entry) && IsSegmentName(procedure) && IsSegmentName(exit)
    requires procedure != ""
    ensures var code := RouteCodeOf(entry, procedure, exit);
      && RouteModel.IsProcedureRouteString(code)
      && ToUpper(code) == code
      && ExtractSegmentNames(code) == SegmentNames(Some(entry), Some(procedure), Some(exit))
      && ToUpper(ExtractSegmentNames(code).entry.value) == entry
      && ToUpper(ExtractSegmentNames(code).base.value) == procedure
      && ToUpper(ExtractSegmentNames(code).exit.value) == exit
  {
    var code := RouteCodeOf(entry, procedure, exit);
    ProcedureRouteStringOfPieces(entry, procedure, exit);
    UpperRouteCode(code);
    ToUpperIdempotent(code);
  }
}
