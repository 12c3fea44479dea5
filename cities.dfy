/** The fixed city list and the search filter of the location selector
    (app/Mainmaps/page.tsx). */
module Cities {

  datatype City = City(name: string, lat: real, lng: real)

  const IndianCities: seq<City> := [
    City("Delhi", 28.6139, 77.209),
    City("Mumbai", 19.076, 72.8777),
    City("Bangalore", 12.9716, 77.5946),
    City("Kolkata", 22.5726, 88.3639),
    City("Chennai", 13.0827, 80.2707),
    City("Hyderabad", 17.385, 78.4867),
    City("Pune", 18.5204, 73.8567),
    City("Ahmedabad", 23.0225, 72.5714),
    City("Jaipur", 26.9124, 75.7873)
  ]

  const ChineseCities: seq<City> := [
    City("Beijing", 39.9042, 116.4074),
    City("Shanghai", 31.2304, 121.4737),
    City("Guangzhou", 23.1291, 113.2644),
    City("Shenzhen", 22.5431, 114.0579)
  ]

  /** Every city the dropdown can offer, Indian cities first. */
  const AllCities: seq<City> := IndianCities + ChineseCities

  /** The city selected when the page opens. */
  const DefaultCity: City := City("Delhi", 28.6139, 77.209)

  // ---------------------------------------------------------------------
  // Text helpers: ASCII lower-casing, JavaScript white space, `includes`

  function LowerChar(c: char): char
  {
    if 'A' <= c <= 'Z' then (c as int + 32) as char else c
  }

  /** `toLowerCase`, restricted to ASCII letters. */
  function Lower(s: string): (r: string)
    ensures |r| == |s|
    ensures forall i :: 0 <= i < |s| ==> r[i] == LowerChar(s[i])
  {
    if s == [] then [] else [LowerChar(s[0])] + Lower(s[1..])
  }

  /** The white space `String.prototype.trim` removes that this model knows:
      tab, line feed, vertical tab, form feed, carriage return, space,
      no-break space, line and paragraph separators and the byte-order mark. */
  predicate IsSpace(c: char)
  {
    c == ' ' || c == '\t' || c == '\n' || c == '\r' || c == '\U{000B}' || c == '\U{000C}'
    || c == '\U{00A0}' || c == '\U{2028}' || c == '\U{2029}' || c == '\U{FEFF}'
  }

  function TrimStart(s: string): string
  {
    if s != [] && IsSpace(s[0]) then TrimStart(s[1..]) else s
  }

  function TrimEnd(s: string): string
  {
    if s != [] && IsSpace(s[|s| - 1]) then TrimEnd(s[..|s| - 1]) else s
  }

  /** `trim`: white space removed from both ends. */
  function Trim(s: string): string
  {
    TrimEnd(TrimStart(s))
  }

  predicate AllSpace(s: string)
  {
    forall i :: 0 <= i < |s| ==> IsSpace(s[i])
  }

  lemma {:induction false} TrimStartEmpty(s: string)
    ensures TrimStart(s) == [] <==> AllSpace(s)
  {
    if s != [] && IsSpace(s[0]) {
      TrimStartEmpty(s[1..]);
      assert AllSpace(s[1..]) ==> AllSpace(s) by {
        if AllSpace(s[1..]) {
          forall i | 0 <= i < |s| ensures IsSpace(s[i]) {
            if i > 0 { assert s[i] == s[1..][i - 1]; }
          }
        }
      }
    }
  }

  lemma {:induction false} TrimEndEmpty(s: string)
    ensures TrimEnd(s) == [] <==> AllSpace(s)
  {
    if s != [] && IsSpace(s[|s| - 1]) {
      TrimEndEmpty(s[..|s| - 1]);
      assert AllSpace(s[..|s| - 1]) ==> AllSpace(s) by {
        if AllSpace(s[..|s| - 1]) {
          forall i | 0 <= i < |s| ensures IsSpace(s[i]) {
            if i < |s| - 1 { assert s[i] == s[..|s| - 1][i]; }
          }
        }
      }
    }
  }

  lemma {:induction false} TrimStartHead(s: string)
    ensures TrimStart(s) != [] ==> !IsSpace(TrimStart(s)[0])
  {
    if s != [] && IsSpace(s[0]) {
      TrimStartHead(s[1..]);
    }
  }

  /** A term is blank after trimming exactly when it is all white space. */
  lemma TrimBlank(s: string)
    ensures Trim(s) == [] <==> AllSpace(s)
  {
    TrimStartEmpty(s);
    TrimStartHead(s);
    TrimEndEmpty(TrimStart(s));
  }

  /** `needle` occurs in `hay` starting at index `i`. */
  predicate OccursAt(hay: string, needle: string, i: nat)
  {
    i + |needle| <= |hay| && hay[i..i + |needle|] == needle
  }

  /** `String.prototype.includes`. */
  predicate Contains(hay: string, needle: string)
  {
    exists i: nat | i <= |hay| :: OccursAt(hay, needle, i)
  }

  /** The per-city test of the filter: lower-cased name includes the
      lower-cased (untrimmed) term. */
  predicate Matches(c: City, term: string)
  {
    Contains(Lower(c.name), Lower(term))
  }

  /** `sub` keeps some elements of `s` in their original order. */
  predicate IsSublist<T(==)>(sub: seq<T>, s: seq<T>)
  {
    if sub == [] then true
    else if s == [] then false
    else (sub[0] == s[0] && IsSublist(sub[1..], s[1..])) || IsSublist(sub, s[1..])
  }

  /** `Array.prototype.filter` with the city test. */
  function Filter(cs: seq<City>, term: string): (r: seq<City>)
    ensures IsSublist(r, cs)
    ensures forall c :: c in r <==> c in cs && Matches(c, term)
  {
    if cs == [] then []
    else if Matches(cs[0], term) then [cs[0]] + Filter(cs[1..], term)
    else Filter(cs[1..], term)
  }

  /** Filtering distributes over concatenation: the relative order of the
      kept cities is that of the input. */
  lemma {:induction false} FilterAppend(a: seq<City>, b: seq<City>, term: string)
    ensures Filter(a + b, term) == Filter(a, term) + Filter(b, term)
  {
    if a == [] {
      assert a + b == b;
    } else {
      assert (a + b)[1..] == a[1..] + b;
      FilterAppend(a[1..], b, term);
    }
  }

  /** The city filter effect: all cities for a blank term, otherwise the
      matching ones. */
  function FilterCities(term: string): (r: seq<City>)
    ensures IsSublist(r, AllCities)
  {
    if Trim(term) == [] then
      assert IsSublist(AllCities, AllCities) by { SublistRefl(AllCities); }
      AllCities
    else Filter(AllCities, term)
  }

  lemma {:induction false} SublistRefl<T>(s: seq<T>)
    ensures IsSublist(s, s)
  {
    if s != [] { SublistRefl(s[1..]); }
  }

  /** A blank term lists all thirteen cities in their original order. */
  lemma BlankTermListsAll(term: string)
    requires AllSpace(term)
    ensures FilterCities(term) == AllCities
    ensures |FilterCities(term)| == 13
  {
    TrimBlank(term);
  }

  /** Any other term lists exactly the matching cities, none dropped. */
  lemma TermListsMatches(term: string)
    requires !AllSpace(term)
    ensures forall c :: c in FilterCities(term) <==> c in AllCities && Matches(c, term)
  {
    TrimBlank(term);
  }

  /** A city of the list is always offered when its own name is typed. */
  lemma OwnNameListed(c: City)
    ensures c in AllCities ==> c in FilterCities(c.name)
  {
    assert OccursAt(Lower(c.name), Lower(c.name), 0);
  }

  /** Lower-casing never turns white space into anything else, or anything
      else into white space. */
  lemma LowerKeepsBlank(s: string)
    ensures AllSpace(Lower(s)) <==> AllSpace(s)
  {
    assert forall c :: IsSpace(LowerChar(c)) <==> IsSpace(c);
    var r := Lower(s);
    if AllSpace(r) {
      assert forall i :: 0 <= i < |s| ==> IsSpace(s[i]) by {
        forall i | 0 <= i < |s| ensures IsSpace(s[i]) { assert IsSpace(r[i]); }
      }
    }
  }

  lemma {:induction false} FilterSameLower(cs: seq<City>, t1: string, t2: string)
    requires Lower(t1) == Lower(t2)
    ensures Filter(cs, t1) == Filter(cs, t2)
  {
    if cs != [] {
      FilterSameLower(cs[1..], t1, t2);
    }
  }

  /** The search ignores case: two terms that lower-case alike list the same
      cities. */
  lemma SearchIgnoresCase(t1: string, t2: string)
    requires Lower(t1) == Lower(t2)
    ensures FilterCities(t1) == FilterCities(t2)
  {
    LowerKeepsBlank(t1);
    LowerKeepsBlank(t2);
    TrimBlank(t1);
    TrimBlank(t2);
    FilterSameLower(AllCities, t1, t2);
  }

  /** Typing "DEL" offers Delhi. */
  lemma UpperCaseFindsDelhi()
    ensures DefaultCity in FilterCities("DEL")
  {
    assert Lower("DEL") == "del";
    assert Lower(DefaultCity.name) == "delhi";
    assert OccursAt(Lower(DefaultCity.name), Lower("DEL"), 0);
    assert !IsSpace('D');
    assert AllCities[0] == DefaultCity;
  }
}
