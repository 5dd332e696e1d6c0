/** Value threading: the substitution ops, and the loop that fills a template
    from the results saved by earlier steps. */
module Materialize {
  import opened Prelude
  import opened Types
  import opened Decimal

  datatype MaterializeError =
    | MissingSavedResult(name: string)
    | UnparseableSavedResult(reference: string, op: string)
    | NumericOverflow(reference: string, op: string)
    | InvalidBps(bps: nat)
    | PlaceholderNotFound(name: string)

  /** Integer division of the source's unsigned integers. */
  function Quotient(n: nat, d: nat): nat
    requires d != 0
  {
    n / d
  }

  function Product(n: nat, m: nat): nat {
    n * m
  }

  function ApplySubstitutionOp(saved: Bytes, op: SubstitutionOp, reference: string): Result<string, MaterializeError> {
    match op
    case Raw => Ok(saved)
    case DivU128(denominator) =>
      var n := ParseU128Json(saved);
      if n.None? then Err(UnparseableSavedResult(reference, "DivU128"))
      else if denominator == 0 then Err(InvalidBps(0))
      else Ok(Quote(Print(Quotient(n.value, denominator))))
    case PercentU128(bps) =>
      if bps > 10_000 then Err(InvalidBps(bps))
      else
        var n := ParseU128Json(saved);
        if n.None? then Err(UnparseableSavedResult(reference, "PercentU128"))
        else if Product(n.value, bps) >= TWO_128 then Err(NumericOverflow(reference, "PercentU128"))
        else Ok(Quote(Print(Product(n.value, bps) / 10_000)))
  }

  function Placeholder(name: string): string {
    "\"${" + name + "}\""
  }

  predicate Contains(s: string, pattern: string) {
    exists i | 0 <= i <= |s| :: pattern <= s[i..]
  }

  /** Replace every occurrence, scanning left to right without overlaps. */
  function ReplaceAll(s: string, pattern: string, text: string): string
    requires pattern != ""
  {
    if s == "" then ""
    else if pattern <= s then text + ReplaceAll(s[|pattern|..], pattern, text)
    else s[..1] + ReplaceAll(s[1..], pattern, text)
  }

  /** The substitutions applied one after the other; the first failure decides. */
  function MaterializeArgs(template: Bytes, substitutions: seq<Substitution>, saved: map<string, Bytes>)
    : Result<Bytes, MaterializeError>
    decreases |substitutions|
  {
    if substitutions == [] then Ok(template)
    else
      var sub := substitutions[0];
      if sub.reference !in saved then Err(MissingSavedResult(sub.reference))
      else
        match ApplySubstitutionOp(saved[sub.reference], sub.op, sub.reference)
        case Err(e) => Err(e)
        case Ok(text) =>
          if !Contains(template, Placeholder(sub.reference)) then Err(PlaceholderNotFound(sub.reference))
          else MaterializeArgs(ReplaceAll(template, Placeholder(sub.reference), text), substitutions[1..], saved)
  }

  /** The loop as written: one string, rewritten in place by each substitution. */
  method MaterializeLoop(template: Bytes, substitutions: seq<Substitution>, saved: map<string, Bytes>)
    returns (r: Result<Bytes, MaterializeError>)
    ensures r == MaterializeArgs(template, substitutions, saved)
  {
    var out := template;
    var i := 0;
    while i < |substitutions|
      invariant 0 <= i <= |substitutions|
      invariant MaterializeArgs(template, substitutions, saved) == MaterializeArgs(out, substitutions[i..], saved)
    {
      var sub := substitutions[i];
      assert substitutions[i..][1..] == substitutions[i + 1..];
      if sub.reference !in saved {
        return Err(MissingSavedResult(sub.reference));
      }
      var replacement := ApplySubstitutionOp(saved[sub.reference], sub.op, sub.reference);
      if replacement.Err? {
        return Err(replacement.error);
      }
      var placeholder := Placeholder(sub.reference);
      if !Contains(out, placeholder) {
        return Err(PlaceholderNotFound(sub.reference));
      }
      out := ReplaceAll(out, placeholder, replacement.value);
      i := i + 1;
    }
    return Ok(out);
  }

  /** A step with its arguments filled in, as it will be dispatched. */
  function MaterializeStep(call: Step, saved: map<string, Bytes>): Result<Step, MaterializeError> {
    if call.argsTemplate.None? then Ok(call)
    else
      match MaterializeArgs(call.argsTemplate.value.template, call.argsTemplate.value.substitutions, saved)
      case Err(e) => Err(e)
      case Ok(args) => Ok(call.(args := args))
  }
}
