/** The route key: two location names joined by an underscore, never escaped. */
module RouteKeys {
  import opened Common
  import opened Records

  /** The key of the route from `from` to `to`. */
  function RouteKey(from: string, to: string): string {
    from + "_" + to
  }

  /** The key is the origin, one separator, then the destination. */
  lemma RouteKeyParts(from: string, to: string)
    ensures var k := RouteKey(from, to);
      && |k| == |from| + 1 + |to|
      && k[..|from|] == from && k[|from|] == '_' && k[|from| + 1..] == to
  {
  }

  /**
   * How `location?.name` reads inside a template string: a missing location
   * or name gives "undefined", a null name "null".
   */
  function NameText(loc: Option<Location>): string {
    match loc
    case None => "undefined"
    case Some(l) =>
      match l.name
      case Absent => "undefined"
      case Null => "null"
      case Text(n) => n
  }

  /** The key a trip's own location names give it. */
  function DerivedKey(t: Trip): string {
    RouteKey(NameText(t.fromLocation), NameText(t.toLocation))
  }

  /**
   * A missing location, a missing name and the literal name "undefined" give
   * the same key part; so do a null name and the literal name "null".
   */
  lemma NameRenderings(to: Option<Location>)
    ensures var k := RouteKey(NameText(None), NameText(to));
      && k == RouteKey(NameText(Some(Location(Absent))), NameText(to))
      && k == RouteKey(NameText(Some(Location(Text("undefined")))), NameText(to))
    ensures RouteKey(NameText(Some(Location(Null))), NameText(to))
         == RouteKey(NameText(Some(Location(Text("null")))), NameText(to))
  {
  }

  /** The key is not injective: a separator inside a name moves the split point. */
  lemma KeyCollision()
    ensures RouteKey("a_b", "c") == RouteKey("a", "b_c")
    ensures ("a_b", "c") != ("a", "b_c")
  {
  }

  /** When neither origin name holds the separator, the key determines both names. */
  lemma KeyInjectiveWithoutSeparator(f1: string, t1: string, f2: string, t2: string)
    requires '_' !in f1 && '_' !in f2
    requires RouteKey(f1, t1) == RouteKey(f2, t2)
    ensures f1 == f2 && t1 == t2
  {
    RouteKeyParts(f1, t1);
    RouteKeyParts(f2, t2);
  }
}
