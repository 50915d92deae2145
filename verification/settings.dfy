/** The configuration snapshot the interceptor reads at construction.

    Django exposes settings as attributes of a global object; an attribute
    that was never defined raises `AttributeError`. Here the two settings the
    interceptor reads are passed explicitly, with absence made a value. */
module Settings {
  import opened Optional

  /** One element of a list or set `ALIVENESS_URL`: a string, or some other
      Python value, kept only as the text `str()` gives for it, which is
      what the warning shows. */
  datatype Elem = S(s: string) | NonStr(shown: string)

  /** The shapes `ALIVENESS_URL` can take. A `list` or `set` is `Coll`, its
      elements in iteration order (a set's order is whatever Python yields).
      Everything else, numbers, dicts, tuples, frozensets and bytes alike,
      is `Other`, kept as the text the warning shows for it. */
  datatype Setting =
    | Absent
    | Null
    | Str(s: string)
    | Coll(items: seq<Elem>)
    | Other(shown: string)

  /** `ALIVENESS_URL` and `MIDDLEWARE`; `None` for an undefined `MIDDLEWARE`. */
  datatype Config = Config(alivenessUrl: Setting, middleware: Option<seq<string>>)

  /** The path `u` is named as a string by the setting: the setting itself,
      or one of its string elements. */
  ghost predicate Names(s: Setting, u: string) {
    match s
    case Str(p) => p == u
    case Coll(items) => S(u) in items
    case _ => false
  }

  /** Settings that resolve without any diagnostic: an explicit `None`, a
      string, or a list or set of strings only. */
  ghost predicate WellFormed(s: Setting) {
    match s
    case Absent => false
    case Null => true
    case Str(_) => true
    case Coll(items) => forall k :: 0 <= k < |items| ==> items[k].S?
    case Other(_) => false
  }
}
