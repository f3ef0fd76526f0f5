/**
 * The schema catalog of one collection: its nested property tree with the
 * long (business) and short (stored) name of every property, the two name
 * dictionaries of every level, its indices and its approximate row count;
 * and the walks over dotted paths that translate between long and short
 * names, find a property, and expand a wildcard.
 */
module Catalog {
  import opened Wrappers
  import opened Text

  /** One property; `sub` holds its own level when it has sub-properties (HasSubProperties). */
  datatype Property = Property(
    shortName: string,
    longName: string,
    typeName: string,
    isList: bool,
    isNullable: bool,
    isEnum: bool,
    enumValues: seq<string>,
    sub: Option<Level>)

  /** A property list with the dictionaries between its long and short names. */
  datatype Level = Level(
    properties: seq<Property>,
    shortToLong: map<string, string>,
    longToShort: map<string, string>)

  datatype Index = Index(name: string, shortProperties: seq<string>, longProperties: seq<string>)

  /** A collection; `indices` may be null in the source. */
  datatype Collection = Collection(
    name: string,
    database: string,
    indices: Option<seq<Index>>,
    top: Level,
    numberOfRows: int)

  /** QupidCollection.Equals: same database and same name, ignoring case. */
  predicate SameCollection(a: Collection, b: Collection)
  {
    EqualsIgnoreCase(a.database, b.database) && EqualsIgnoreCase(a.name, b.name)
  }

  /**
   * Two catalog entries are the same collection exactly when their databases and their names
   * have the same length and agree letter by letter once lower-cased; and that is an
   * equivalence: reflexive, symmetric and transitive.
   */
  lemma SameCollectionCharwise(a: Collection, b: Collection, c: Collection)
    ensures SameCollection(a, b) <==>
      && |a.database| == |b.database| && (forall i :: 0 <= i < |a.database| ==> LowerChar(a.database[i]) == LowerChar(b.database[i]))
      && |a.name| == |b.name| && (forall i :: 0 <= i < |a.name| ==> LowerChar(a.name[i]) == LowerChar(b.name[i]))
    ensures SameCollection(a, a)
    ensures SameCollection(a, b) ==> SameCollection(b, a)
    ensures SameCollection(a, b) && SameCollection(b, c) ==> SameCollection(a, c)
  {
    EqualsIgnoreCaseCharwise(a.database, b.database);
    EqualsIgnoreCaseCharwise(a.name, b.name);
  }

  /** FetchProperty: the first property whose long name equals `longName` ignoring case. */
  function FetchProperty(props: seq<Property>, longName: string): (r: Option<Property>)
    ensures r.Some? ==> r.value in props && EqualsIgnoreCase(r.value.longName, longName)
    ensures r.None? <==> forall i :: 0 <= i < |props| ==> !EqualsIgnoreCase(props[i].longName, longName)
    ensures r.Some? ==>
      exists i :: 0 <= i < |props| && props[i] == r.value && forall k :: 0 <= k < i ==> !EqualsIgnoreCase(props[k].longName, longName)
  {
    if |props| == 0 then None
    else if EqualsIgnoreCase(props[0].longName, longName) then Some(props[0])
    else FetchProperty(props[1..], longName)
  }

  /** The first property whose short name equals `shortName` ignoring case. */
  function FetchPropertyByShortName(props: seq<Property>, shortName: string): (r: Option<Property>)
    ensures r.Some? ==> r.value in props && EqualsIgnoreCase(r.value.shortName, shortName)
    ensures r.None? <==> forall i :: 0 <= i < |props| ==> !EqualsIgnoreCase(props[i].shortName, shortName)
    ensures r.Some? ==>
      exists i :: 0 <= i < |props| && props[i] == r.value && forall k :: 0 <= k < i ==> !EqualsIgnoreCase(props[k].shortName, shortName)
  {
    if |props| == 0 then None
    else if EqualsIgnoreCase(props[0].shortName, shortName) then Some(props[0])
    else FetchPropertyByShortName(props[1..], shortName)
  }

  /** The level a walk continues in after matching `p`: its own level, or the same level after a leaf. */
  function Next(level: Level, p: Property): Level
  {
    if p.sub.Some? then p.sub.value else level
  }

  /** The short segments ConvertToShortPath appends for the long segments `pieces`. */
  function ShortWalk(level: Level, pieces: seq<string>): (segs: seq<string>)
    ensures |segs| <= |pieces|
    decreases |pieces|
  {
    if |pieces| == 0 || pieces[0] !in level.longToShort then []
    else
      var s := level.longToShort[pieces[0]];
      match FetchProperty(level.properties, pieces[0])
      case None => [s]
      case Some(p) => [s] + ShortWalk(Next(level, p), pieces[1..])
  }

  /** The long segments ConvertToLongPath appends for the short segments `pieces`. */
  function LongWalk(level: Level, pieces: seq<string>): (segs: seq<string>)
    ensures |segs| <= |pieces|
    decreases |pieces|
  {
    if |pieces| == 0 || pieces[0] !in level.shortToLong then []
    else
      var l := level.shortToLong[pieces[0]];
      match FetchPropertyByShortName(level.properties, pieces[0])
      case None => [l]
      case Some(p) => [l] + LongWalk(Next(level, p), pieces[1..])
  }

  /** ConvertToShortPath: null exactly when the first segment is not a long name of the top level. */
  function ShortPath(c: Collection, longPath: string): (r: Option<string>)
    ensures r.None? <==> Split(longPath, '.')[0] !in c.top.longToShort
  {
    var segs := ShortWalk(c.top, Split(longPath, '.'));
    if |segs| == 0 then None else Some(Join(segs, "."))
  }

  /** ConvertToLongPath: the input itself when the first segment is not a short name of the top level. */
  function LongPath(c: Collection, shortPath: string): (r: string)
    ensures Split(shortPath, '.')[0] !in c.top.shortToLong ==> r == shortPath
  {
    var segs := LongWalk(c.top, Split(shortPath, '.'));
    if |segs| == 0 then shortPath else Join(segs, ".")
  }

  /** The property GetProperty holds when its walk over `pieces` ends, starting from `last`. */
  function PropertyWalk(level: Level, pieces: seq<string>, last: Option<Property>): Option<Property>
    decreases |pieces|
  {
    if |pieces| == 0 || pieces[0] !in level.longToShort then last
    else
      match FetchProperty(level.properties, pieces[0])
      case None => None
      case Some(p) => PropertyWalk(Next(level, p), pieces[1..], Some(p))
  }

  /** GetProperty. */
  function PropertyAt(c: Collection, longPath: string): Option<Property>
  {
    PropertyWalk(c.top, Split(longPath, '.'), None)
  }

  /** What GetAllReferencedProperties returns: a property sequence, null, or an exception. */
  datatype Expansion = Expanded(properties: seq<Property>) | NotExpanded | ExpansionFault

  /** The properties without sub-properties, in list order. */
  function Leaves(props: seq<Property>): (r: seq<Property>)
    ensures forall p :: p in r <==> p in props && p.sub.None?
    ensures |r| <= |props|
  {
    if |props| == 0 then []
    else if props[0].sub.None? then [props[0]] + Leaves(props[1..])
    else Leaves(props[1..])
  }

  /** The Properties list of a property, which is null for a leaf. */
  function SubProperties(p: Property): Option<seq<Property>>
  {
    if p.sub.Some? then Some(p.sub.value.properties) else None
  }

  function ExpandWalk(context: Option<seq<Property>>, pieces: seq<string>): Expansion
    decreases |pieces|
  {
    if |pieces| == 0 then NotExpanded
    else if pieces[0] == "*" then
      (if context.None? then ExpansionFault else Expanded(Leaves(context.value)))
    else if context.None? then ExpansionFault
    else
      match FetchProperty(context.value, pieces[0])
      case None => NotExpanded
      case Some(p) => ExpandWalk(SubProperties(p), pieces[1..])
  }

  /** GetAllReferencedProperties. */
  function Expand(c: Collection, longPath: string): Expansion
  {
    ExpandWalk(Some(c.top.properties), Split(longPath, '.'))
  }

  /** One step of ConvertToShortPath's loop keeps the segments built so far a prefix of the whole walk. */
  lemma ShortWalkStep(top: Level, pieces: seq<string>, built: seq<string>, level: Level, depth: nat)
    requires depth < |pieces|
    requires built + ShortWalk(level, pieces[depth..]) == ShortWalk(top, pieces)
    ensures pieces[depth] !in level.longToShort ==> built == ShortWalk(top, pieces)
    ensures pieces[depth] in level.longToShort ==>
      var b := built + [level.longToShort[pieces[depth]]];
      match FetchProperty(level.properties, pieces[depth])
      case None => b == ShortWalk(top, pieces)
      case Some(p) => b + ShortWalk(Next(level, p), pieces[depth + 1..]) == ShortWalk(top, pieces)
  {
    var rest := pieces[depth..];
    if pieces[depth] !in level.longToShort {
      assert ShortWalk(level, rest) == [];
      assert built + [] == built;
    } else {
      var s := level.longToShort[pieces[depth]];
      assert rest[1..] == pieces[depth + 1..];
      match FetchProperty(level.properties, pieces[depth])
      case None =>
        assert ShortWalk(level, rest) == [s];
      case Some(p) =>
        var tail := ShortWalk(Next(level, p), pieces[depth + 1..]);
        assert ShortWalk(level, rest) == [s] + tail;
        assert built + ([s] + tail) == built + [s] + tail;
    }
  }

  /** One step of ConvertToLongPath's loop keeps the segments built so far a prefix of the whole walk. */
  lemma LongWalkStep(top: Level, pieces: seq<string>, built: seq<string>, level: Level, depth: nat)
    requires depth < |pieces|
    requires built + LongWalk(level, pieces[depth..]) == LongWalk(top, pieces)
    ensures pieces[depth] !in level.shortToLong ==> built == LongWalk(top, pieces)
    ensures pieces[depth] in level.shortToLong ==>
      var b := built + [level.shortToLong[pieces[depth]]];
      match FetchPropertyByShortName(level.properties, pieces[depth])
      case None => b == LongWalk(top, pieces)
      case Some(p) => b + LongWalk(Next(level, p), pieces[depth + 1..]) == LongWalk(top, pieces)
  {
    var rest := pieces[depth..];
    if pieces[depth] !in level.shortToLong {
      assert LongWalk(level, rest) == [];
      assert built + [] == built;
    } else {
      var s := level.shortToLong[pieces[depth]];
      assert rest[1..] == pieces[depth + 1..];
      match FetchPropertyByShortName(level.properties, pieces[depth])
      case None =>
        assert LongWalk(level, rest) == [s];
      case Some(p) =>
        var tail := LongWalk(Next(level, p), pieces[depth + 1..]);
        assert LongWalk(level, rest) == [s] + tail;
        assert built + ([s] + tail) == built + [s] + tail;
    }
  }

  // ---------------------------------------------------------------------
  // The walks as the source writes them: loops over the dotted segments.
  // ---------------------------------------------------------------------

  method ConvertToShortPath(c: Collection, longPath: string) returns (r: Option<string>)
    ensures r == ShortPath(c, longPath)
  {
    var strBld := "";
    ghost var built: seq<string> := [];
    var pieces := Split(longPath, '.');
    var context := c.top;  // propertyContext and conversionDict together
    var depth := 0;
    while depth < |pieces|
      invariant 0 <= depth <= |pieces|
      invariant strBld == Terminated(built, '.')
      invariant built + ShortWalk(context, pieces[depth..]) == ShortWalk(c.top, pieces)
    {
      ShortWalkStep(c.top, pieces, built, context, depth);
      if pieces[depth] !in context.longToShort {
        break;
      }
      var result := context.longToShort[pieces[depth]];
      TerminatedSnoc(built, result, '.');
      strBld := strBld + result + ".";
      built := built + [result];
      var cur := FetchProperty(context.properties, pieces[depth]);
      if cur.None? {
        break;
      }
      if cur.value.sub.Some? {
        context := cur.value.sub.value;
      }
      depth := depth + 1;
    }
    assert built == ShortWalk(c.top, pieces);
    TerminatedTrim(built, '.');
    if |strBld| > 0 {
      r := Some(strBld[..|strBld| - 1]);
    } else {
      r := None;
    }
  }

  method ConvertToLongPath(c: Collection, shortPath: string) returns (r: string)
    ensures r == LongPath(c, shortPath)
  {
    var strBld := "";
    ghost var built: seq<string> := [];
    var pieces := Split(shortPath, '.');
    var context := c.top;
    var depth := 0;
    while depth < |pieces|
      invariant 0 <= depth <= |pieces|
      invariant strBld == Terminated(built, '.')
      invariant built + LongWalk(context, pieces[depth..]) == LongWalk(c.top, pieces)
    {
      LongWalkStep(c.top, pieces, built, context, depth);
      if pieces[depth] !in context.shortToLong {
        break;
      }
      var result := context.shortToLong[pieces[depth]];
      TerminatedSnoc(built, result, '.');
      strBld := strBld + result + ".";
      built := built + [result];
      var cur := FetchPropertyByShortName(context.properties, pieces[depth]);
      if cur.None? {
        break;
      }
      if cur.value.sub.Some? {
        context := cur.value.sub.value;
      }
      depth := depth + 1;
    }
    assert built == LongWalk(c.top, pieces);
    TerminatedTrim(built, '.');
    if |strBld| > 0 {
      r := strBld[..|strBld| - 1];
    } else {
      r := shortPath;
    }
  }

  /** GetProperty; the short-name builder of the source is never read, so it is not kept here. */
  method GetProperty(c: Collection, longPath: string) returns (r: Option<Property>)
    ensures r == PropertyAt(c, longPath)
  {
    var pieces := Split(longPath, '.');
    var curQupidProp: Option<Property> := None;
    var context := c.top;
    var depth := 0;
    while depth < |pieces|
      invariant 0 <= depth <= |pieces|
      invariant PropertyWalk(context, pieces[depth..], curQupidProp) == PropertyAt(c, longPath)
    {
      if pieces[depth] !in context.longToShort {
        break;
      }
      curQupidProp := FetchProperty(context.properties, pieces[depth]);
      if curQupidProp.None? {
        break;
      }
      assert pieces[depth..][1..] == pieces[depth + 1..];
      if curQupidProp.value.sub.Some? {
        context := curQupidProp.value.sub.value;
      }
      depth := depth + 1;
    }
    r := curQupidProp;
  }

  method GetAllReferencedProperties(c: Collection, longPath: string) returns (r: Expansion)
    ensures r == Expand(c, longPath)
  {
    var propertyContext: Option<seq<Property>> := Some(c.top.properties);
    var pieces := Split(longPath, '.');
    var k := 0;
    while k < |pieces|
      invariant 0 <= k <= |pieces|
      invariant ExpandWalk(propertyContext, pieces[k..]) == Expand(c, longPath)
    {
      var piece := pieces[k];
      if piece == "*" {
        // the star piece: every property of the current context without sub-properties
        if propertyContext.None? {
          return ExpansionFault;
        }
        return Expanded(Leaves(propertyContext.value));
      }
      if propertyContext.None? {
        return ExpansionFault;
      }
      var nestedProp := FetchProperty(propertyContext.value, piece);
      if nestedProp.None? {
        return NotExpanded;
      }
      assert pieces[k..][1..] == pieces[k + 1..];
      propertyContext := SubProperties(nestedProp.value);
      k := k + 1;
    }
    return NotExpanded;
  }

  // ---------------------------------------------------------------------
  // Catalogs built the way the collection finder builds them: both maps
  // filled from the one property list, names distinct and free of dots.
  // ---------------------------------------------------------------------

  /** LongToShortProperties as the builder fills it from a property list. */
  function LongToShortOf(props: seq<Property>): (m: map<string, string>)
    ensures forall i :: 0 <= i < |props| ==> props[i].longName in m
  {
    if |props| == 0 then map[] else LongToShortOf(props[1..])[props[0].longName := props[0].shortName]
  }

  /** ShortToLongProperties as the builder fills it from a property list. */
  function ShortToLongOf(props: seq<Property>): (m: map<string, string>)
    ensures forall i :: 0 <= i < |props| ==> props[i].shortName in m
  {
    if |props| == 0 then map[] else ShortToLongOf(props[1..])[props[0].shortName := props[0].longName]
  }

  /** No two properties of a level share a long or a short name, ignoring case. */
  ghost predicate DistinctNames(props: seq<Property>)
  {
    forall i, j :: 0 <= i < j < |props| ==>
      Lower(props[i].longName) != Lower(props[j].longName) && Lower(props[i].shortName) != Lower(props[j].shortName)
  }

  ghost predicate DotFree(props: seq<Property>)
  {
    forall i :: 0 <= i < |props| ==> '.' !in props[i].longName && '.' !in props[i].shortName
  }

  ghost predicate WellFormed(level: Level)
    decreases level
  {
    && level.longToShort == LongToShortOf(level.properties)
    && level.shortToLong == ShortToLongOf(level.properties)
    && DistinctNames(level.properties)
    && DotFree(level.properties)
    && forall i :: 0 <= i < |level.properties| && level.properties[i].sub.Some? ==>
         level.properties[i].sub.value < level && WellFormed(level.properties[i].sub.value)
  }

  lemma DistinctTail(props: seq<Property>)
    requires |props| > 0 && DistinctNames(props)
    ensures DistinctNames(props[1..])
  {
    forall a, b | 0 <= a < b < |props[1..]|
      ensures Lower(props[1..][a].longName) != Lower(props[1..][b].longName)
      ensures Lower(props[1..][a].shortName) != Lower(props[1..][b].shortName)
    {
      assert props[1..][a] == props[a + 1] && props[1..][b] == props[b + 1];
    }
  }

  /** A long-name key of a well-built level belongs to one property, found by both lookups. */
  lemma {:induction false} LongKey(props: seq<Property>, x: string) returns (i: nat)
    requires DistinctNames(props)
    requires x in LongToShortOf(props)
    ensures i < |props| && props[i].longName == x
    ensures LongToShortOf(props)[x] == props[i].shortName
    ensures FetchProperty(props, x) == Some(props[i])
    ensures ShortToLongOf(props)[props[i].shortName] == x
    ensures FetchPropertyByShortName(props, props[i].shortName) == Some(props[i])
    decreases |props|
  {
    if props[0].longName == x {
      i := 0;
    } else {
      DistinctTail(props);
      var j := LongKey(props[1..], x);
      i := j + 1;
      assert props[1..][j] == props[i];
      assert Lower(props[0].longName) != Lower(props[i].longName);
      assert Lower(props[0].shortName) != Lower(props[i].shortName);
    }
  }

  /** A short-name key of a well-built level belongs to one property, found by both lookups. */
  lemma {:induction false} ShortKey(props: seq<Property>, x: string) returns (i: nat)
    requires DistinctNames(props)
    requires x in ShortToLongOf(props)
    ensures i < |props| && props[i].shortName == x
    ensures ShortToLongOf(props)[x] == props[i].longName
    ensures FetchPropertyByShortName(props, x) == Some(props[i])
    ensures LongToShortOf(props)[props[i].longName] == x
    ensures FetchProperty(props, props[i].longName) == Some(props[i])
    decreases |props|
  {
    if props[0].shortName == x {
      i := 0;
    } else {
      DistinctTail(props);
      var j := ShortKey(props[1..], x);
      i := j + 1;
      assert props[1..][j] == props[i];
      assert Lower(props[0].longName) != Lower(props[i].longName);
      assert Lower(props[0].shortName) != Lower(props[i].shortName);
    }
  }

  /** Every long segment names a property of the level the walk has reached. */
  ghost predicate Resolvable(level: Level, pieces: seq<string>)
    decreases |pieces|
  {
    |pieces| == 0 ||
    (pieces[0] in level.longToShort &&
     FetchProperty(level.properties, pieces[0]).Some? &&
     Resolvable(Next(level, FetchProperty(level.properties, pieces[0]).value), pieces[1..]))
  }

  /** Every short segment names a property of the level the walk has reached. */
  ghost predicate ShortResolvable(level: Level, pieces: seq<string>)
    decreases |pieces|
  {
    |pieces| == 0 ||
    (pieces[0] in level.shortToLong &&
     FetchPropertyByShortName(level.properties, pieces[0]).Some? &&
     ShortResolvable(Next(level, FetchPropertyByShortName(level.properties, pieces[0]).value), pieces[1..]))
  }

  /** The level a fully resolvable long path ends in. */
  ghost function Context(level: Level, pieces: seq<string>): Level
    requires Resolvable(level, pieces)
    decreases |pieces|
  {
    if |pieces| == 0 then level
    else Context(Next(level, FetchProperty(level.properties, pieces[0]).value), pieces[1..])
  }

  lemma NextWellFormed(level: Level, i: nat)
    requires WellFormed(level) && i < |level.properties|
    ensures WellFormed(Next(level, level.properties[i]))
    ensures '.' !in level.properties[i].longName && '.' !in level.properties[i].shortName
  {
  }

  /** One resolved long segment: what the short walk appends and what the long walk reads back. */
  lemma LongSegmentStep(level: Level, pieces: seq<string>, rest: seq<string>)
    requires WellFormed(level) && |pieces| > 0 && pieces[0] in level.longToShort
    ensures FetchProperty(level.properties, pieces[0]).Some?
    ensures var p := FetchProperty(level.properties, pieces[0]).value;
      && WellFormed(Next(level, p))
      && '.' !in p.shortName
      && ShortWalk(level, pieces) == [p.shortName] + ShortWalk(Next(level, p), pieces[1..])
      && LongWalk(level, [p.shortName] + rest) == [pieces[0]] + LongWalk(Next(level, p), rest)
      && (ShortResolvable(level, [p.shortName] + rest) <==> ShortResolvable(Next(level, p), rest))
  {
    var i := LongKey(level.properties, pieces[0]);
    NextWellFormed(level, i);
    assert ([level.properties[i].shortName] + rest)[1..] == rest;
  }

  /** One resolved short segment: what the long walk appends and what the short walk reads back. */
  lemma ShortSegmentStep(level: Level, pieces: seq<string>, rest: seq<string>)
    requires WellFormed(level) && |pieces| > 0 && pieces[0] in level.shortToLong
    ensures FetchPropertyByShortName(level.properties, pieces[0]).Some?
    ensures var p := FetchPropertyByShortName(level.properties, pieces[0]).value;
      && WellFormed(Next(level, p))
      && '.' !in p.longName
      && LongWalk(level, pieces) == [p.longName] + LongWalk(Next(level, p), pieces[1..])
      && ShortWalk(level, [p.longName] + rest) == [pieces[0]] + ShortWalk(Next(level, p), rest)
      && (Resolvable(level, [p.longName] + rest) <==> Resolvable(Next(level, p), rest))
  {
    var i := ShortKey(level.properties, pieces[0]);
    NextWellFormed(level, i);
    assert ([level.properties[i].longName] + rest)[1..] == rest;
  }

  /** Every segment of a sequence is free of dots. */
  predicate DotFreeSegments(segs: seq<string>)
  {
    forall k :: 0 <= k < |segs| ==> '.' !in segs[k]
  }

  lemma DotFreeCons(x: string, rest: seq<string>)
    requires '.' !in x && DotFreeSegments(rest)
    ensures DotFreeSegments([x] + rest)
  {
    forall k | 0 <= k < |[x] + rest| ensures '.' !in ([x] + rest)[k] {
      if k > 0 { assert ([x] + rest)[k] == rest[k - 1]; }
    }
  }

  lemma HeadTail(pieces: seq<string>)
    requires |pieces| > 0
    ensures [pieces[0]] + pieces[1..] == pieces
  {
  }

  /** Walking a resolvable long path to short names and back gives the same segments. */
  lemma {:induction false} LongShortWalk(level: Level, pieces: seq<string>)
    requires WellFormed(level) && Resolvable(level, pieces)
    ensures |ShortWalk(level, pieces)| == |pieces|
    ensures DotFreeSegments(ShortWalk(level, pieces))
    ensures ShortResolvable(level, ShortWalk(level, pieces))
    ensures LongWalk(level, ShortWalk(level, pieces)) == pieces
    decreases |pieces|
  {
    if |pieces| > 0 {
      var p := FetchProperty(level.properties, pieces[0]).value;
      var rest := ShortWalk(Next(level, p), pieces[1..]);
      LongSegmentStep(level, pieces, rest);
      LongShortWalk(Next(level, p), pieces[1..]);
      DotFreeCons(p.shortName, rest);
      HeadTail(pieces);
    }
  }

  /** Walking a resolvable short path to long names and back gives the same segments. */
  lemma {:induction false} ShortLongWalk(level: Level, pieces: seq<string>)
    requires WellFormed(level) && ShortResolvable(level, pieces)
    ensures |LongWalk(level, pieces)| == |pieces|
    ensures DotFreeSegments(LongWalk(level, pieces))
    ensures Resolvable(level, LongWalk(level, pieces))
    ensures ShortWalk(level, LongWalk(level, pieces)) == pieces
    decreases |pieces|
  {
    if |pieces| > 0 {
      var p := FetchPropertyByShortName(level.properties, pieces[0]).value;
      var rest := LongWalk(Next(level, p), pieces[1..]);
      ShortSegmentStep(level, pieces, rest);
      ShortLongWalk(Next(level, p), pieces[1..]);
      DotFreeCons(p.longName, rest);
      HeadTail(pieces);
    }
  }

  /** ConvertToLongPath(ConvertToShortPath(p)) == p for every fully resolvable long path p. */
  lemma LongShortRoundTrip(c: Collection, longPath: string)
    requires WellFormed(c.top)
    requires Resolvable(c.top, Split(longPath, '.'))
    ensures ShortPath(c, longPath).Some?
    ensures LongPath(c, ShortPath(c, longPath).value) == longPath
  {
    var pieces := Split(longPath, '.');
    LongShortWalk(c.top, pieces);
    var segs := ShortWalk(c.top, pieces);
    SplitJoin(segs, '.');
    JoinSplit(longPath, '.');
  }

  /** ConvertToShortPath(ConvertToLongPath(s)) == s for every fully resolvable short path s. */
  lemma ShortLongRoundTrip(c: Collection, shortPath: string)
    requires WellFormed(c.top)
    requires ShortResolvable(c.top, Split(shortPath, '.'))
    ensures ShortPath(c, LongPath(c, shortPath)) == Some(shortPath)
  {
    var pieces := Split(shortPath, '.');
    ShortLongWalk(c.top, pieces);
    var segs := LongWalk(c.top, pieces);
    SplitJoin(segs, '.');
    JoinSplit(shortPath, '.');
  }

  /** The short walk over a longer path extends the walk over its prefix. */
  lemma {:induction false} ShortWalkPrefix(level: Level, a: seq<string>, b: seq<string>)
    ensures ShortWalk(level, a) <= ShortWalk(level, a + b)
    decreases |a|
  {
    if |a| > 0 {
      assert (a + b)[0] == a[0];
      assert (a + b)[1..] == a[1..] + b;
      if a[0] in level.longToShort {
        match FetchProperty(level.properties, a[0])
        case None =>
        case Some(p) => ShortWalkPrefix(Next(level, p), a[1..], b);
      }
    }
  }

  /** A segment unknown at the level a resolvable prefix reaches ends the walk there. */
  lemma {:induction false} ShortWalkStops(level: Level, a: seq<string>, b: seq<string>)
    requires Resolvable(level, a)
    requires |b| > 0 && b[0] !in Context(level, a).longToShort
    ensures ShortWalk(level, a + b) == ShortWalk(level, a)
    decreases |a|
  {
    if |a| == 0 {
      assert a + b == b;
    } else {
      assert (a + b)[0] == a[0];
      assert (a + b)[1..] == a[1..] + b;
      ShortWalkStops(Next(level, FetchProperty(level.properties, a[0]).value), a[1..], b);
    }
  }

  /**
   * ConvertToShortPath truncates instead of failing: an unknown last segment, such as
   * the "SUM" of "Donations.TotalAmount.SUM", is dropped and the rest still converts.
   */
  lemma UnknownSuffixIgnored(c: Collection, longPath: string, suffix: string)
    requires Resolvable(c.top, Split(longPath, '.'))
    requires '.' !in suffix
    requires suffix !in Context(c.top, Split(longPath, '.')).longToShort
    ensures ShortPath(c, longPath + "." + suffix) == ShortPath(c, longPath)
  {
    SplitAppend(longPath, suffix, '.');
    SplitSingle(suffix, '.');
    assert longPath + "." + suffix == longPath + ['.'] + suffix;
    ShortWalkStops(c.top, Split(longPath, '.'), [suffix]);
  }

  /** GetProperty ends on the property whose short name ConvertToShortPath appends last. */
  lemma {:induction false} PropertyWalkMatchesShortWalk(level: Level, pieces: seq<string>, last: Option<Property>)
    requires WellFormed(level)
    ensures var segs := ShortWalk(level, pieces);
      var r := PropertyWalk(level, pieces, last);
      (|segs| == 0 ==> r == last) &&
      (|segs| > 0 ==> r.Some? && r.value.shortName == segs[|segs| - 1])
    decreases |pieces|
  {
    if |pieces| > 0 && pieces[0] in level.longToShort {
      var i := LongKey(level.properties, pieces[0]);
      var p := level.properties[i];
      NextWellFormed(level, i);
      PropertyWalkMatchesShortWalk(Next(level, p), pieces[1..], Some(p));
    }
  }

  /** On a well-built catalog GetProperty finds a property exactly when ConvertToShortPath converts. */
  lemma PropertyAtAgreesWithShortPath(c: Collection, longPath: string)
    requires WellFormed(c.top)
    ensures PropertyAt(c, longPath).Some? <==> ShortPath(c, longPath).Some?
    ensures ShortPath(c, longPath).Some? ==>
      var segs := ShortWalk(c.top, Split(longPath, '.'));
      PropertyAt(c, longPath).value.shortName == segs[|segs| - 1]
  {
    var pieces := Split(longPath, '.');
    PropertyWalkMatchesShortWalk(c.top, pieces, None);
    assert PropertyAt(c, longPath) == PropertyWalk(c.top, pieces, None);
    assert ShortPath(c, longPath).Some? <==> |ShortWalk(c.top, pieces)| > 0;
  }

  /** GetAllReferencedProperties("*") is the top level's leaf properties, in list order. */
  lemma ExpandStar(c: Collection)
    ensures Expand(c, "*") == Expanded(Leaves(c.top.properties))
  {
    SplitSingle("*", '.');
  }

  /** Without a "*" segment GetAllReferencedProperties never yields a property list. */
  lemma {:induction false} ExpandNeedsStar(context: Option<seq<Property>>, pieces: seq<string>)
    requires "*" !in pieces
    ensures !ExpandWalk(context, pieces).Expanded?
    decreases |pieces|
  {
    if |pieces| > 0 && context.Some? {
      assert pieces[0] != "*";
      match FetchProperty(context.value, pieces[0])
      case None =>
      case Some(p) =>
        assert forall k :: 0 <= k < |pieces[1..]| ==> pieces[1..][k] == pieces[k + 1];
        ExpandNeedsStar(SubProperties(p), pieces[1..]);
    }
  }
}
