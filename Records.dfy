/**
 * The values the notification system passes around: the notification record
 * held by the provider, the options a caller hands to the creation operation,
 * the partial record merged in by the update operation, and the small amount
 * of JavaScript semantics (falsy strings, undefined versus null, names that
 * every plain object inherits) that the operations depend on.
 */
module Records {

  datatype Option<+T> = None | Some(value: T)

  /** An object property that may be left undefined, as opposed to set (possibly to null). */
  datatype Field<+T> = Undefined | Defined(value: T)

  /** A free-form style override; only passed through, never interpreted. */
  type Styles = map<string, string>

  function Min(a: int, b: int): int { if a <= b then a else b }
  function Max(a: int, b: int): int { if a >= b then a else b }

  /**
   * A string-valued property read with `||`: undefined, null (both None) and
   * the empty string are falsy.
   */
  predicate Truthy(s: Option<string>) {
    s.Some? && s.value != ""
  }

  /** `s || fallback` for a string property. */
  function OrElse(s: Option<string>, fallback: string): string {
    if Truthy(s) then s.value else fallback
  }

  /**
   * One active notification. `kind` is the source's `type` field (a reserved
   * word in Dafny); `duration` None is the persistent (null) duration.
   */
  datatype Record = Record(
    id: string,
    kind: string,
    message: string,
    duration: Option<int>,
    showClose: bool,
    customStyles: Styles,
    position: string)

  /**
   * The per-notification options of the creation operation. None and
   * Undefined stand for a property that is absent; `duration` distinguishes an
   * absent property from an explicit null (Defined(None)).
   */
  datatype Options = Options(
    kind: Option<string>,
    message: Option<string>,
    duration: Field<Option<int>>,
    showClose: Field<bool>,
    customStyles: Option<Styles>,
    position: Option<string>)

  const NoOptions: Options := Options(None, None, Undefined, Undefined, None, None)

  /** A partial record for the update operation: None is a key the patch does not have. */
  datatype Patch = Patch(
    id: Option<string>,
    kind: Option<string>,
    message: Option<string>,
    duration: Option<Option<int>>,
    showClose: Option<bool>,
    customStyles: Option<Styles>,
    position: Option<string>)

  /** The five notification types that have a shorthand creator and a theme. */
  datatype Kind = Success | Error | Warning | Violation | Info {
    function Name(): string {
      match this
      case Success => "success"
      case Error => "error"
      case Warning => "warning"
      case Violation => "violation"
      case Info => "info"
    }
  }

  /** The six named screen anchors a stack of notifications is placed at. */
  datatype Anchor = TopRight | TopLeft | BottomRight | BottomLeft | TopCenter | BottomCenter {
    function Name(): string {
      match this
      case TopRight => "top-right"
      case TopLeft => "top-left"
      case BottomRight => "bottom-right"
      case BottomLeft => "bottom-left"
      case TopCenter => "top-center"
      case BottomCenter => "bottom-center"
    }
  }

  /**
   * The property names every object literal inherits from Object.prototype.
   * Reading one of them from `{}` (or from a table written as an object
   * literal) gives a function or an object, which is truthy, not undefined.
   */
  predicate ObjectPrototypeKey(k: string) {
    k in {"constructor", "hasOwnProperty", "isPrototypeOf", "propertyIsEnumerable",
          "toString", "toLocaleString", "valueOf", "__proto__",
          "__defineGetter__", "__defineSetter__", "__lookupGetter__", "__lookupSetter__"}
  }
}
