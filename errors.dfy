/**
 * The Python exceptions raised by the binding layer, each with the reason
 * carried by its message.
 */
module Errors {

  /**
   * The Python exception class an error surfaces as. `EngineKind` is the
   * RuntimeError PyO3 raises for an error the engine reports through
   * `anyhow`, with no Python exception class of its own.
   */
  datatype ExceptionKind =
    | IndexErrorKind | ValueErrorKind | TypeErrorKind | AttributeErrorKind | OverflowErrorKind | PanicKind | EngineKind

  datatype Error =
    // numpy.rs
    | IndexOutOfRange(size: nat, index: nat)      // "ndarray index out of range"
    | ReadOnlyDestination                          // "assignment destination is read-only"
    | NotContiguous                                // "memory is not C-contiguous"
    | BadI32(value: nat)                           // "bad i32 value"
    | BadIntp(value: nat)                          // "bad npy_intp value"
    | BadArraySize(expected: nat, found: nat)      // "bad ndarray size"
    | NoSuchField(name: string)                    // numpy structured-field assignment
    | BadFieldValue(name: string)                  // a value numpy cannot broadcast into the field
    // transport.rs
    | UnknownName(name: string)                    // a mode / method / model string the engine's `try_from` refuses
    | BadCompileMode(mode: string)                // "bad mode (expected 'All', ...)"
    | BadConstraintsSize(expected: nat, found: nat)
    | ConstraintsInForward                         // "bad constraints (unused in 'Forward' mode)"
    | ConstraintsDisabled                          // "bad constraints (disabled by transport settings)"
    | NoGeometry                                   // "bad geometry (... found 'none')"
    | BadExtraction(what: string)                  // a Python value of the wrong type
    | IntOverflow(what: string)                    // an int outside the range of the Rust integer type
    | NoAttribute(name: string)
    // geometry.rs
    | BadLengths(expected: nat, found: nat)        // "bad lengths"
    | CannotInferShape                             // "cannot infer map's shape"
    | BadZDimension(found: nat)                    // "bad shape for z-array"
    | BadZSize(expected: nat, found: nat)          // "bad size for z-array"
    | NoArgument                                   // "bad number of argument(s)"
    | IndexUnderflow                               // a usize subtraction below zero (a Rust panic)
    // an error reported by the physics engine, which this model does not contain
    | EngineError(code: nat)

  /**
   * The exception class of each error: `index_error!`, `type_error!` and
   * `value_error!` raise their own classes, PyO3's integer extraction raises
   * OverflowError, and an option name the engine refuses comes back from its
   * `try_from` as an engine error.
   */
  function KindOf(e: Error): (k: ExceptionKind)
    ensures k == IndexErrorKind <==> e.IndexOutOfRange?
    ensures k == TypeErrorKind <==> e.NoGeometry? || e.BadExtraction?
    ensures k == AttributeErrorKind <==> e.NoAttribute?
    ensures k == OverflowErrorKind <==> e.IntOverflow?
    ensures k == PanicKind <==> e.IndexUnderflow?
    ensures k == EngineKind <==> e.EngineError? || e.UnknownName?
  {
    match e
    case IndexOutOfRange(_, _) => IndexErrorKind
    case NoGeometry => TypeErrorKind
    case BadExtraction(_) => TypeErrorKind
    case IntOverflow(_) => OverflowErrorKind
    case NoAttribute(_) => AttributeErrorKind
    case IndexUnderflow => PanicKind
    case UnknownName(_) => EngineKind
    case EngineError(_) => EngineKind
    case _ => ValueErrorKind
  }
}
