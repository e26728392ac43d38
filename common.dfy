/** Small value types shared by every module of the model. */
module Common {

  /** A JavaScript value that may be `null`/`undefined` (None) or present (Some). */
  datatype Option<+T> = None | Some(value: T) {
    function GetOr(default: T): T {
      match this
      case Some(v) => v
      case None => default
    }
  }

  /** JavaScript truthiness of an optional string: present and not the empty string. */
  predicate Truthy(s: Option<string>) {
    s.Some? && s.value != ""
  }

  /** JavaScript truthiness of an optional number id: present and not 0. */
  predicate Selected(id: Option<int>) {
    id.Some? && id.value != 0
  }

  /** JavaScript `a || b` on two optional strings. */
  function OrElse(a: Option<string>, b: Option<string>): (r: Option<string>)
    ensures Truthy(a) ==> r == a
    ensures !Truthy(a) ==> r == b
  {
    if Truthy(a) then a else b
  }

  /**
   * A navigation side effect issued by the application:
   * `router.push(path)`, `router.replace({path, query: {redirect}})`,
   * or a full page load through `window.location.href = path`.
   */
  datatype Navigation =
    | Push(path: string)
    | Replace(path: string, redirect: string)
    | FullPageLoad(path: string)
  {
    function Target(): string {
      match this
      case Push(p) => p
      case Replace(p, _) => p
      case FullPageLoad(p) => p
    }
  }
}
