/** `_get_urls`: turning the loosely typed `ALIVENESS_URL` setting into the
    set of watched paths, with warnings instead of failures. */
module Urls {
  import opened Settings
  import opened Logging

  /** The watched paths together with the diagnostics emitted on the way. */
  datatype Resolution = Resolution(urls: set<string>, log: seq<LogEvent>)

  /** What the warnings show for the non-string elements of `items`, in
      order: the reference for which warnings a collection produces. */
  ghost function NonStrings(items: seq<Elem>): seq<string> {
    if items == [] then []
    else (if items[0].NonStr? then [items[0].shown] else []) + NonStrings(items[1..])
  }

  /** `log` holds one warning per entry of `bad`, in order, each naming it. */
  ghost predicate WarnsFor(log: seq<LogEvent>, bad: seq<string>) {
    && |log| == |bad|
    && forall k :: 0 <= k < |log| ==> log[k] == Warn(UrlItemNotString(bad[k]))
  }

  lemma {:induction false} NonStringsFromItems(items: seq<Elem>)
    ensures forall k :: 0 <= k < |NonStrings(items)| ==> NonStr(NonStrings(items)[k]) in items
    ensures NonStrings(items) == [] <==> forall k :: 0 <= k < |items| ==> items[k].S?
  {
    if items != [] {
      NonStringsFromItems(items[1..]);
      var rest := NonStrings(items[1..]);
      if items[0].NonStr? {
        assert NonStrings(items) == [items[0].shown] + rest;
      } else {
        assert NonStrings(items) == rest;
        assert forall k :: 1 <= k < |items| ==> items[k] == items[1..][k - 1];
      }
    }
  }

  /** The loop over a list or set value: each string element is added to
      the result; each other element is skipped with one warning naming it. */
  function CollectStrings(items: seq<Elem>): (r: Resolution)
    ensures forall u :: u in r.urls <==> S(u) in items
    ensures WarnsFor(r.log, NonStrings(items))
  {
    if items == [] then Resolution({}, [])
    else
      var rest := CollectStrings(items[1..]);
      match items[0]
      case S(u) => Resolution({u} + rest.urls, rest.log)
      case NonStr(shown) => Resolution(rest.urls, [Warn(UrlItemNotString(shown))] + rest.log)
  }

  /** `_get_urls()`. Total: every shape of the setting yields a set. */
  function ResolveUrls(s: Setting): (r: Resolution)
    ensures s.Absent? ==> r.urls == {} && r.log == [Warn(UrlNotSet)]
    ensures s.Null? ==> r.urls == {} && r.log == []
    ensures s.Str? ==> r.urls == {s.s} && r.log == []
    ensures s.Other? ==> r.urls == {} && r.log == [Warn(UrlBadType(s.shown))]
    ensures s.Coll? ==> WarnsFor(r.log, NonStrings(s.items))
    ensures forall k :: 0 <= k < |r.log| ==> r.log[k].level == Warning
  {
    match s
    case Absent => Resolution({}, [Warn(UrlNotSet)])
    case Null => Resolution({}, [])
    case Str(p) => Resolution({p}, [])
    case Coll(items) => CollectStrings(items)
    case Other(shown) => Resolution({}, [Warn(UrlBadType(shown))])
  }

  /** The watched set is exactly the set of paths the setting names as
      strings: nothing is invented, and no string the setting holds is lost. */
  lemma ResolvedExactlyNamed(s: Setting, u: string)
    ensures u in ResolveUrls(s).urls <==> Names(s, u)
  {
  }

  /** For a list or set, every warning names an element that is in the
      collection and is not a string. */
  lemma CollectionWarningsNameBadItems(items: seq<Elem>, k: nat)
    requires k < |ResolveUrls(Coll(items)).log|
    ensures ResolveUrls(Coll(items)).log[k].msg.UrlItemNotString?
    ensures NonStr(ResolveUrls(Coll(items)).log[k].msg.item) in items
  {
    NonStringsFromItems(items);
  }

  /** Conversely, every non-string element of a list or set is warned about,
      by the text it shows. */
  lemma {:induction false} EveryBadItemWarned(items: seq<Elem>, shown: string)
    requires NonStr(shown) in items
    ensures Warn(UrlItemNotString(shown)) in ResolveUrls(Coll(items)).log
  {
    if items[0] != NonStr(shown) {
      assert NonStr(shown) in items[1..];
      EveryBadItemWarned(items[1..], shown);
    }
  }

  /** Resolution is silent exactly on well-formed settings: an absent value,
      a value of the wrong type, or a collection holding a non-string always
      leaves a warning, and nothing else does. */
  lemma QuietIffWellFormed(s: Setting)
    ensures ResolveUrls(s).log == [] <==> WellFormed(s)
  {
    if s.Coll? {
      NonStringsFromItems(s.items);
    }
  }
}
