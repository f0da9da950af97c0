/** Trimming and lower-casing over the ASCII letters and blanks. */
module Text {
  predicate IsBlank(c: char) { c == ' ' || c == '\t' || c == '\n' || c == '\r' }

  function TrimLeft(s: string): string { if s != [] && IsBlank(s[0]) then TrimLeft(s[1..]) else s }

  function TrimRight(s: string): string { if s != [] && IsBlank(s[|s| - 1]) then TrimRight(s[..|s| - 1]) else s }

  function Strip(s: string): string { TrimRight(TrimLeft(s)) }

  function LowerChar(c: char): char { if 'A' <= c <= 'Z' then c - 'A' + 'a' else c }

  function Lower(s: string): (r: string)
    ensures |r| == |s| && forall i | 0 <= i < |s| :: r[i] == LowerChar(s[i])
  {
    seq(|s|, i requires 0 <= i < |s| => LowerChar(s[i]))
  }

  /** Nothing left to trim. */
  predicate Trim(s: string) { s == [] || (!IsBlank(s[0]) && !IsBlank(s[|s| - 1])) }

  lemma {:induction false} TrimRightTrims(s: string)
    requires s == [] || !IsBlank(s[0])
    ensures Trim(TrimRight(s))
  {
    if s != [] && IsBlank(s[|s| - 1]) { TrimRightTrims(s[..|s| - 1]); }
  }

  lemma {:induction false} TrimLeftTrims(s: string)
    ensures TrimLeft(s) == [] || !IsBlank(TrimLeft(s)[0])
  {
    if s != [] && IsBlank(s[0]) { TrimLeftTrims(s[1..]); }
  }

  lemma StripTrims(s: string)
    ensures Trim(Strip(s))
  {
    TrimLeftTrims(s);
    TrimRightTrims(TrimLeft(s));
  }

  lemma TrimIsStripped(s: string)
    requires Trim(s)
    ensures Strip(s) == s
  {}

  /** An industry name in its normal form stays as it is. */
  lemma NormalFormIsFixed(s: string)
    ensures Strip(Strip(s)) == Strip(s)
    ensures Lower(Strip(Lower(Strip(s)))) == Lower(Strip(s)) && Strip(Lower(Strip(s))) == Lower(Strip(s))
  {
    StripTrims(s);
    TrimIsStripped(Strip(s));
    var l := Lower(Strip(s));
    assert Trim(l);
    TrimIsStripped(l);
    assert Lower(l) == l;
  }

  /** Trimming takes blanks off both ends, until there are none left. */
  lemma StripOutcome(s: string) returns (before: string, after: string)
    ensures s == before + Strip(s) + after
    ensures forall c | c in before + after :: c in " \t\n\r"
    ensures Strip(s) == "" || (Strip(s)[0] !in " \t\n\r" && Strip(s)[|Strip(s)| - 1] !in " \t\n\r")
  {
    before := LeftBlanks(s);
    after := RightBlanks(TrimLeft(s));
    StripTrims(s);
    assert s == before + (Strip(s) + after);
  }

  lemma {:induction false} LeftBlanks(s: string) returns (blanks: string)
    ensures s == blanks + TrimLeft(s) && forall c | c in blanks :: c in " \t\n\r"
  {
    if s != [] && IsBlank(s[0]) {
      var rest := LeftBlanks(s[1..]);
      blanks := [s[0]] + rest;
      assert s == [s[0]] + s[1..];
    } else {
      blanks := [];
    }
  }

  lemma {:induction false} RightBlanks(s: string) returns (blanks: string)
    ensures s == TrimRight(s) + blanks && forall c | c in blanks :: c in " \t\n\r"
  {
    if s != [] && IsBlank(s[|s| - 1]) {
      var rest := RightBlanks(s[..|s| - 1]);
      blanks := rest + [s[|s| - 1]];
      assert s == s[..|s| - 1] + [s[|s| - 1]];
    } else {
      blanks := [];
    }
  }

  /** Lower-casing takes the k-th capital letter to the k-th small letter, and leaves the rest. */
  lemma LowerOutcome(s: string, i: nat, k: nat)
    requires i < |s| && k < 26
    ensures s[i] == ('A' as int + k) as char ==> Lower(s)[i] == ('a' as int + k) as char
    ensures s[i] < 'A' || 'Z' < s[i] ==> Lower(s)[i] == s[i]
  {}
}

/** The canonical search contract: normalise, filter, keep the first hit per key, stop at the limit. */
module Search {
  import opened Common
  import opened Text

  datatype Criteria = Criteria(region: string, industries: set<string>, limit: nat, level: nat)
  datatype Hit = Hit(
    ref: string, name: string, region: string, industries: set<string>, source: string,
    tax: Option<string>, registration: Option<string>, contacts: seq<string>, level: nat, observed: int, captured: int)

  function StripAll(items: seq<string>): seq<string> {
    if items == [] then [] else (if Strip(items[0]) == "" then [] else [Strip(items[0])]) + StripAll(items[1..])
  }

  function StripId(id: Option<string>): Option<string> {
    if id.Some? && id.value != "" then Some(Strip(id.value)) else None
  }

  function Industries(items: set<string>): set<string> { set i | i in items && Strip(i) != "" :: Lower(Strip(i)) }

  function Normalize(h: Hit): Hit {
    Hit(Strip(h.ref), Strip(h.name), Strip(h.region), Industries(h.industries), Strip(h.source),
        StripId(h.tax), StripId(h.registration), StripAll(h.contacts), h.level, h.observed, h.captured)
  }

  /** Whether a normalised hit meets the criteria. */
  predicate Meets(n: Hit, c: Criteria) {
    n.ref != "" && n.name != "" && n.source != "" && n.region == c.region && n.industries * c.industries != {}
      && n.level >= c.level
  }

  function KeyOf(n: Hit): string { if n.tax.Some? && n.tax.value != "" then n.tax.value else n.ref }

  /** A hit before `i` with this key meets the criteria. */
  predicate KeyTaken(hits: seq<Hit>, c: Criteria, i: nat, key: string)
    requires i <= |hits|
  {
    exists j :: 0 <= j < i && Meets(Normalize(hits[j]), c) && KeyOf(Normalize(hits[j])) == key
  }

  /** The hit at `i` meets the criteria and is the first of its key to do so. */
  predicate Accepted(hits: seq<Hit>, c: Criteria, i: nat)
    requires i < |hits|
  {
    Meets(Normalize(hits[i]), c) && !KeyTaken(hits, c, i, KeyOf(Normalize(hits[i])))
  }

  /** All accepted hits, in the order in which they were found. */
  function Select(hits: seq<Hit>, c: Criteria): seq<Hit> {
    if hits == [] then []
    else Select(hits[..|hits| - 1], c) + if Accepted(hits, c, |hits| - 1) then [Normalize(hits[|hits| - 1])] else []
  }

  function Take<T>(s: seq<T>, n: nat): seq<T> { if |s| <= n then s else s[..n] }

  function Execute(hits: seq<Hit>, c: Criteria): seq<Hit> { Take(Select(hits, c), c.limit) }

  lemma {:induction false} SelectPrefix(hits: seq<Hit>, c: Criteria, i: nat)
    requires i < |hits|
    ensures Select(hits[..i + 1], c) == Select(hits[..i], c) + if Accepted(hits, c, i) then [Normalize(hits[i])] else []
  {
    assert hits[..i + 1][..i] == hits[..i];
  }

  lemma {:induction false} SelectGrows(hits: seq<Hit>, c: Criteria, i: nat)
    requires i <= |hits|
    ensures Select(hits[..i], c) <= Select(hits, c)
    decreases |hits| - i
  {
    if i == |hits| {
      assert hits[..i] == hits;
    } else {
      SelectPrefix(hits, c, i);
      SelectGrows(hits, c, i + 1);
    }
  }

  lemma KeyTakenGrows(hits: seq<Hit>, c: Criteria, i: nat, key: string)
    requires i < |hits|
    ensures KeyTaken(hits, c, i + 1, key) <==>
              KeyTaken(hits, c, i, key)
              || (Accepted(hits, c, i) && KeyOf(Normalize(hits[i])) == key)
  {}

  /** `SearchService.execute`: accept hits whose key has not been seen, and stop at the limit. */
  method Run(hits: seq<Hit>, c: Criteria) returns (accepted: seq<Hit>)
    requires c.limit >= 1
    ensures accepted == Execute(hits, c)
  {
    hide Normalize, Meets, KeyOf, KeyTaken, Select;
    accepted := [];
    var seen: set<string> := {};
    var i := 0;
    assert Select([], c) == [] && hits[..0] == [] by { NothingSelected(c); }
    forall k ensures !KeyTaken(hits, c, 0, k) { NothingTaken(hits, c, k); }
    while i < |hits|
      invariant 0 <= i <= |hits| && |accepted| < c.limit
      invariant accepted == Select(hits[..i], c)
      invariant forall k :: k in seen <==> KeyTaken(hits, c, i, k)
    {
      var n := Normalize(hits[i]);
      SelectPrefix(hits, c, i);
      forall k
        ensures KeyTaken(hits, c, i + 1, k) <==> KeyTaken(hits, c, i, k) || (Accepted(hits, c, i) && KeyOf(n) == k)
      {
        KeyTakenGrows(hits, c, i, k);
      }
      if Meets(n, c) && KeyOf(n) !in seen {
        seen := seen + {KeyOf(n)};
        accepted := accepted + [n];
        if |accepted| >= c.limit {
          SelectGrows(hits, c, i + 1);
          return;
        }
      }
      i := i + 1;
    }
    assert hits[..i] == hits;
  }

  lemma NothingSelected(c: Criteria)
    ensures Select([], c) == []
  {}

  lemma NothingTaken(hits: seq<Hit>, c: Criteria, key: string)
    ensures !KeyTaken(hits, c, 0, key)
  {}

  /** A smaller limit gives a prefix of what a larger one gives. */
  lemma SmallerLimitIsPrefix(hits: seq<Hit>, c: Criteria, limit: nat)
    requires limit <= c.limit
    ensures Execute(hits, c.(limit := limit)) <= Execute(hits, c)
  {
    LimitDoesNotSelect(hits, c, limit);
  }

  lemma {:induction false} LimitDoesNotSelect(hits: seq<Hit>, c: Criteria, limit: nat)
    ensures Select(hits, c.(limit := limit)) == Select(hits, c)
  {
    if hits != [] { LimitDoesNotSelect(hits[..|hits| - 1], c, limit); }
  }

  // ----- searching again in the results -----

  /** An identifier that consists of blanks only. */
  predicate BlankId(id: Option<string>) { id == Some("") }

  /** A hit that a search has produced. */
  ghost predicate IsNormal(n: Hit) { exists h :: n == Normalize(h) }

  lemma {:induction false} StripAllIsFixed(items: seq<string>)
    ensures StripAll(StripAll(items)) == StripAll(items)
  {
    if items != [] {
      StripAllIsFixed(items[1..]);
      NormalFormIsFixed(items[0]);
      if Strip(items[0]) != "" {
        assert StripAll(items)[1..] == StripAll(items[1..]);
      } else {
        assert StripAll(items) == StripAll(items[1..]);
      }
    }
  }

  lemma IndustriesAreFixed(items: set<string>)
    ensures Industries(Industries(items)) == Industries(items)
  {
    forall i | i in items
      ensures Lower(Strip(Lower(Strip(i)))) == Lower(Strip(i)) && Strip(Lower(Strip(i))) == Lower(Strip(i))
    {
      NormalFormIsFixed(i);
    }
    forall x | x in Industries(items) ensures Lower(Strip(x)) == x && Strip(x) != "" {
      var i :| i in items && Strip(i) != "" && x == Lower(Strip(i));
      assert |x| == |Strip(i)|;
    }
    assert Industries(Industries(items)) == set x | x in Industries(items) :: x by {
      assert forall x | x in Industries(items) :: Lower(Strip(x)) == x && Strip(x) != "";
    }
  }

  lemma StripIdAgain(id: Option<string>)
    ensures StripId(StripId(id)) == if BlankId(StripId(id)) then None else StripId(id)
  {
    if id.Some? { NormalFormIsFixed(id.value); }
  }

  /** Normalising again changes nothing but blank identifiers, which become none; and it keeps the key and
      what the criteria see. */
  lemma NormalizeAgain(h: Hit, c: Criteria)
    ensures var n := Normalize(h);
            && (Normalize(n) == n <==> !BlankId(n.tax) && !BlankId(n.registration))
            && KeyOf(Normalize(n)) == KeyOf(n) && (Meets(Normalize(n), c) <==> Meets(n, c))
            && Normalize(n) == n.(tax := Normalize(n).tax, registration := Normalize(n).registration)
  {
    NormalFormIsFixed(h.ref);
    NormalFormIsFixed(h.name);
    NormalFormIsFixed(h.region);
    NormalFormIsFixed(h.source);
    IndustriesAreFixed(h.industries);
    StripAllIsFixed(h.contacts);
    StripIdAgain(h.tax);
    StripIdAgain(h.registration);
    hide Strip, Industries, StripAll, StripId;
  }

  function NormalizeAll(hits: seq<Hit>): (r: seq<Hit>)
    ensures |r| == |hits| && forall i | 0 <= i < |hits| :: r[i] == Normalize(hits[i])
  {
    seq(|hits|, i requires 0 <= i < |hits| => Normalize(hits[i]))
  }

  /** The selected hits meet the criteria, are normal, and have distinct keys. */
  ghost predicate WellChosen(s: seq<Hit>, c: Criteria) {
    && (forall n | n in s :: IsNormal(n) && Meets(n, c))
    && forall i, j | 0 <= i < j < |s| :: KeyOf(s[i]) != KeyOf(s[j])
  }

  /** The hits selected from a prefix have keys that are taken there. */
  lemma {:induction false} SelectedKeysAreTaken(hits: seq<Hit>, c: Criteria, i: nat, n: Hit)
    requires i <= |hits| && n in Select(hits[..i], c)
    ensures IsNormal(n) && Meets(n, c) && KeyTaken(hits, c, i, KeyOf(n))
    decreases i
  {
    hide Normalize, Meets, KeyOf, Select;
    if i > 0 {
      SelectPrefix(hits, c, i - 1);
      if n in Select(hits[..i - 1], c) {
        SelectedKeysAreTaken(hits, c, i - 1, n);
      } else {
        assert n == Normalize(hits[i - 1]);
      }
    } else {
      assert hits[..0] == [];
      NothingSelected(c);
    }
  }

  lemma {:induction false} SelectIsWellChosen(hits: seq<Hit>, c: Criteria, i: nat)
    requires i <= |hits|
    ensures WellChosen(Select(hits[..i], c), c)
    decreases i
  {
    hide Normalize, Meets, KeyOf, Select, KeyTaken, IsNormal;
    if i > 0 {
      SelectPrefix(hits, c, i - 1);
      SelectIsWellChosen(hits, c, i - 1);
      var chosen := Select(hits[..i - 1], c);
      forall j | 0 <= j < |chosen| ensures KeyTaken(hits, c, i - 1, KeyOf(chosen[j])) {
        SelectedKeysAreTaken(hits, c, i - 1, chosen[j]);
      }
      forall n | n in Select(hits[..i], c) ensures IsNormal(n) && Meets(n, c) { SelectedKeysAreTaken(hits, c, i, n); }
    } else {
      assert hits[..0] == [];
      NothingSelected(c);
    }
  }

  /** A well chosen hit is accepted where it stands. */
  lemma WellChosenIsAccepted(s: seq<Hit>, c: Criteria, i: nat)
    requires WellChosen(s, c) && i < |s|
    ensures Accepted(s, c, i)
  {
    forall j | 0 <= j <= i ensures KeyOf(Normalize(s[j])) == KeyOf(s[j]) && Meets(Normalize(s[j]), c) {
      assert s[j] in s;
      var h :| s[j] == Normalize(h);
      NormalizeAgain(h, c);
    }
    hide Normalize, Meets, KeyOf, IsNormal;
  }

  lemma {:induction false} WellChosenIsKept(s: seq<Hit>, c: Criteria, n: nat)
    requires WellChosen(s, c) && n <= |s|
    ensures Select(s[..n], c) == NormalizeAll(s[..n])
    decreases n
  {
    hide Normalize, Meets, KeyOf, WellChosen, KeyTaken, Select, Accepted;
    if n > 0 {
      SelectPrefix(s, c, n - 1);
      WellChosenIsKept(s, c, n - 1);
      WellChosenIsAccepted(s, c, n - 1);
      assert NormalizeAll(s[..n]) == NormalizeAll(s[..n - 1]) + [Normalize(s[n - 1])];
    } else {
      assert s[..0] == [];
      NothingSelected(c);
    }
  }

  lemma WellChosenPart(s: seq<Hit>, c: Criteria, n: nat)
    requires WellChosen(s, c)
    ensures WellChosen(Take(s, n), c)
  {
    hide KeyOf, Meets, IsNormal;
    assert forall x | x in Take(s, n) :: x in s;
  }

  lemma WellChosenIsSame(s: seq<Hit>, c: Criteria)
    requires WellChosen(s, c)
    ensures NormalizeAll(s) == s <==> forall n | n in s :: !BlankId(n.tax) && !BlankId(n.registration)
  {
    forall i | 0 <= i < |s| ensures Normalize(s[i]) == s[i] <==> !BlankId(s[i].tax) && !BlankId(s[i].registration) {
      assert s[i] in s;
      var h :| s[i] == Normalize(h);
      NormalizeAgain(h, c);
    }
    hide Normalize, Meets, KeyOf, IsNormal, BlankId;
    assert NormalizeAll(s) == s <==> forall i | 0 <= i < |s| :: Normalize(s[i]) == s[i];
  }

  lemma ExecuteOfKept(out: seq<Hit>, hits: seq<Hit>, c: Criteria)
    requires out == Execute(hits, c) && Select(out, c) == NormalizeAll(out)
    ensures Execute(out, c) == NormalizeAll(out)
  {
    assert |out| <= c.limit;
  }

  /** Searching again in the results accepts every hit, in the same order; the hits are the same exactly
      when none has an identifier of blanks only. */
  lemma SearchingAgain(hits: seq<Hit>, c: Criteria)
    ensures var out := Execute(hits, c);
            && Execute(out, c) == NormalizeAll(out)
            && (Execute(out, c) == out <==> forall n | n in out :: !BlankId(n.tax) && !BlankId(n.registration))
  {
    assert hits[..|hits|] == hits;
    SelectIsWellChosen(hits, c, |hits|);
    WellChosenPart(Select(hits, c), c, c.limit);
    hide Select, WellChosen, BlankId;
    WellChosenIsKept(Execute(hits, c), c, |Execute(hits, c)|);
    assert Execute(hits, c)[..|Execute(hits, c)|] == Execute(hits, c);
    ExecuteOfKept(Execute(hits, c), hits, c);
    WellChosenIsSame(Execute(hits, c), c);
  }

  // ----- what a search returns -----

  /** The hit with every field trimmed: blank industries and contacts are gone, and an identifier that is not given or
      empty counts as none. */
  ghost predicate IsCleaned(h: Hit, n: Hit) {
    && n.ref == Strip(h.ref) && n.name == Strip(h.name) && n.region == Strip(h.region) && n.source == Strip(h.source)
    && n.level == h.level && n.observed == h.observed && n.captured == h.captured
    && n.tax == (if h.tax.Some? && h.tax.value != "" then Some(Strip(h.tax.value)) else None)
    && n.registration
       == (if h.registration.Some? && h.registration.value != "" then Some(Strip(h.registration.value)) else None)
    && (forall i :: i in n.industries <==> exists x :: x in h.industries && Strip(x) != "" && i == Lower(Strip(x)))
    && n.contacts == StripAll(h.contacts)
  }

  lemma IsNormalized(h: Hit)
    ensures IsCleaned(h, Normalize(h))
  {
    hide Strip, Lower;
  }

  /** The trimmed contacts that are not blank, in their order. */
  lemma {:induction false} ContactsOutcome(items: seq<string>, more: string)
    ensures StripAll([]) == []
    ensures StripAll(items + [more]) == StripAll(items) + if Strip(more) == "" then [] else [Strip(more)]
  {
    if items == [] {
      assert [] + [more] == [more] && [more][1..] == [];
    } else {
      assert (items + [more])[1..] == items[1..] + [more];
      ContactsOutcome(items[1..], more);
    }
  }

  /** The hit names itself and its source, and is of the region, one of the industries and the level asked for. */
  ghost predicate Fits(n: Hit, c: Criteria) {
    && n.ref != "" && n.name != "" && n.source != "" && n.region == c.region && c.level <= n.level
    && exists i :: i in n.industries && i in c.industries
  }

  /** The tax id identifies a company; a hit without one stands for itself. */
  ghost function Identity(n: Hit): string {
    match n.tax case Some(id) => if id == "" then n.ref else id case None => n.ref
  }

  /** The hit at `i` fits, and none before it with its identity does. */
  ghost predicate IsFirst(hits: seq<Hit>, c: Criteria, i: nat)
    requires i < |hits|
  {
    && Fits(Normalize(hits[i]), c)
    && forall j | 0 <= j < i && Identity(Normalize(hits[j])) == Identity(Normalize(hits[i])) ::
         !Fits(Normalize(hits[j]), c)
  }

  lemma FitsAgree(n: Hit, c: Criteria)
    ensures Meets(n, c) <==> Fits(n, c)
    ensures KeyOf(n) == Identity(n)
  {
    if Fits(n, c) {
      var i :| i in n.industries && i in c.industries;
      assert i in n.industries * c.industries;
    }
  }

  lemma FirstAgree(hits: seq<Hit>, c: Criteria, i: nat)
    requires i < |hits|
    ensures Accepted(hits, c, i) <==> IsFirst(hits, c, i)
  {
    forall j | 0 <= j <= i
      ensures Meets(Normalize(hits[j]), c) <==> Fits(Normalize(hits[j]), c)
      ensures KeyOf(Normalize(hits[j])) == Identity(Normalize(hits[j]))
    {
      FitsAgree(Normalize(hits[j]), c);
    }
    hide Meets, Fits, Normalize, KeyOf, Identity;
  }

  /** Ascending places of hits, and the hits at them. */
  ghost predicate ArePlaces(hits: seq<Hit>, places: seq<nat>, chosen: seq<Hit>) {
    && (forall i, j | 0 <= i < j < |places| :: places[i] < places[j])
    && |places| == |chosen|
    && (forall i | 0 <= i < |places| :: places[i] < |hits| && chosen[i] == Normalize(hits[places[i]]))
  }

  ghost predicate AreFirsts(hits: seq<Hit>, c: Criteria, places: seq<nat>) {
    forall j: nat | j < |hits| :: j in places <==> IsFirst(hits, c, j)
  }

  lemma PlacesExtend(hits: seq<Hit>, n: nat, places: seq<nat>, chosen: seq<Hit>)
    requires n < |hits| && ArePlaces(hits[..n], places, chosen)
    ensures ArePlaces(hits, places, chosen) && ArePlaces(hits, places + [n], chosen + [Normalize(hits[n])])
  {
    hide Normalize;
    assert forall k | 0 <= k < n :: hits[..n][k] == hits[k];
  }

  lemma FirstsExtend(hits: seq<Hit>, c: Criteria, n: nat, places: seq<nat>)
    requires n == |hits| - 1 && AreFirsts(hits[..n], c, places) && forall p | p in places :: p < n
    ensures AreFirsts(hits, c, if IsFirst(hits, c, n) then places + [n] else places)
  {
    forall j: nat | j < n ensures IsFirst(hits[..n], c, j) <==> IsFirst(hits, c, j) { SameBefore(hits, c, n, j); }
    hide IsFirst;
  }

  /** The places of the hits that are selected. */
  lemma {:induction false} SelectedPlaces(hits: seq<Hit>, c: Criteria) returns (places: seq<nat>)
    ensures ArePlaces(hits, places, Select(hits, c)) && AreFirsts(hits, c, places)
  {
    if hits == [] {
      places := [];
    } else {
      var n := |hits| - 1;
      var earlier := SelectedPlaces(hits[..n], c);
      FirstAgree(hits, c, n);
      PlacesExtend(hits, n, earlier, Select(hits[..n], c));
      FirstsExtend(hits, c, n, earlier);
      hide IsFirst, ArePlaces, AreFirsts, Normalize;
      places := if Accepted(hits, c, n) then earlier + [n] else earlier;
      assert Select(hits[..n], c) + [] == Select(hits[..n], c);
    }
  }

  lemma SameBefore(hits: seq<Hit>, c: Criteria, n: nat, j: nat)
    requires j < n <= |hits|
    ensures IsFirst(hits[..n], c, j) <==> IsFirst(hits, c, j)
  {
    assert forall k | 0 <= k <= j :: hits[..n][k] == hits[k];
    hide Fits, Normalize, Identity;
  }

  /** A search returns, cleaned and in their order, the first hits that fit and are the first of their identity to fit,
      up to the limit. */
  lemma SearchOutcome(hits: seq<Hit>, c: Criteria) returns (places: seq<nat>)
    ensures forall i, j | 0 <= i < j < |places| :: places[i] < places[j]
    ensures forall i | 0 <= i < |places| :: places[i] < |hits|
    ensures forall j: nat | j < |hits| :: j in places <==> IsFirst(hits, c, j)
    ensures |Execute(hits, c)| == if |places| <= c.limit then |places| else c.limit
    ensures forall i | 0 <= i < |Execute(hits, c)| :: IsCleaned(hits[places[i]], Execute(hits, c)[i])
  {
    places := SelectedPlaces(hits, c);
    hide IsFirst, IsCleaned, Normalize;
    forall i | 0 <= i < |Execute(hits, c)| ensures IsCleaned(hits[places[i]], Execute(hits, c)[i]) {
      IsNormalized(hits[places[i]]);
    }
  }
}

/** The bounded orchestration of a search over several sources. */
module SearchRun {
  import opened Common
  import opened Search

  datatype Reply = Unavailable(code: string) | Answer(hits: seq<Hit>)
  datatype Source = Source(ref: string, reply: Reply)
  datatype Budget = Budget(maxSources: nat, maxCandidates: nat)

  datatype Status = Searched | SearchedNotFound | SourceUnavailable | BudgetLimited
  datatype Attempt = Attempt(ref: string, status: Status, count: nat, error: Option<string>)
  datatype Completeness = NotSearched | NotFound | Unreachable | Limited | Complete
  datatype Report = Report(hits: seq<Hit>, attempts: seq<Attempt>, completeness: Completeness)

  function HitsOf(s: Source): seq<Hit> { match s.reply case Answer(hits) => hits case Unavailable(_) => [] }

  /** All that the sources have to offer, one after the other. */
  function Offered(sources: seq<Source>): seq<Hit> {
    if sources == [] then [] else Offered(sources[..|sources| - 1]) + HitsOf(sources[|sources| - 1])
  }

  /** The sources that the budget lets the run ask at all. */
  function Affordable(sources: seq<Source>, b: Budget): seq<Source> { Take(sources, b.maxSources) }

  /** A source is out of budget when too many come before it, or they have already filled the candidates. */
  predicate OutOfBudget(sources: seq<Source>, b: Budget, i: nat)
    requires i < |sources|
  {
    i >= b.maxSources || |Offered(sources[..i])| >= b.maxCandidates
  }

  /** What one planned source comes to. */
  function AttemptOf(sources: seq<Source>, b: Budget, i: nat): Attempt
    requires i < |sources|
  {
    var s := sources[i];
    if OutOfBudget(sources, b, i) then Attempt(s.ref, BudgetLimited, 0, None)
    else match s.reply
      case Unavailable(code) => Attempt(s.ref, SourceUnavailable, 0, Some(code))
      case Answer(hits) =>
        var taken := Min(|hits|, b.maxCandidates - |Offered(sources[..i])|);
        Attempt(s.ref, if taken > 0 then Searched else SearchedNotFound, taken, None)
  }

  function Attempts(sources: seq<Source>, b: Budget): (r: seq<Attempt>)
    ensures |r| == |sources| && forall i | 0 <= i < |r| :: r[i] == AttemptOf(sources, b, i)
  {
    seq(|sources|, i requires 0 <= i < |sources| => AttemptOf(sources, b, i))
  }

  /** The candidates collected: the first `maxCandidates` of what the affordable sources offer. */
  function Collected(sources: seq<Source>, b: Budget): seq<Hit> {
    Take(Offered(Affordable(sources, b)), b.maxCandidates)
  }

  function Verdict(attempts: seq<Attempt>, hits: seq<Hit>): Completeness {
    if attempts == [] then NotSearched
    else if exists a :: a in attempts && a.status == BudgetLimited then Limited
    else if exists a :: a in attempts && a.status == SourceUnavailable then Unreachable
    else if hits == [] then NotFound else Complete
  }

  lemma {:induction false} OfferedPrefix(sources: seq<Source>, i: nat)
    requires i < |sources|
    ensures Offered(sources[..i + 1]) == Offered(sources[..i]) + HitsOf(sources[i])
  {
    assert sources[..i + 1][..i] == sources[..i];
  }

  lemma {:induction false} OfferedGrows(sources: seq<Source>, i: nat, j: nat)
    requires i <= j <= |sources|
    ensures Offered(sources[..i]) <= Offered(sources[..j])
    decreases j
  {
    if i < j {
      OfferedPrefix(sources, j - 1);
      OfferedGrows(sources, i, j - 1);
    }
  }

  /** What the next source adds to the candidates, and what its attempt says. */
  lemma NextSource(sources: seq<Source>, b: Budget, i: nat, collected: seq<Hit>, remaining: nat)
    requires i < |sources| && i < b.maxSources && collected == Take(Offered(sources[..i]), b.maxCandidates)
    requires remaining == b.maxCandidates - |collected| > 0
    ensures var capped := Take(HitsOf(sources[i]), remaining);
            && Take(Offered(sources[..i + 1]), b.maxCandidates) == collected + capped && |capped| <= remaining
            && AttemptOf(sources, b, i) == match sources[i].reply
                 case Unavailable(code) => Attempt(sources[i].ref, SourceUnavailable, 0, Some(code))
                 case Answer(_) =>
                   Attempt(sources[i].ref, if capped != [] then Searched else SearchedNotFound, |capped|, None)
    ensures HitsOf(sources[i]) == if sources[i].reply.Answer? then sources[i].reply.hits else []
    ensures |collected| + |Take(HitsOf(sources[i]), remaining)| == b.maxCandidates
            ==> |Offered(sources[..i + 1])| >= b.maxCandidates
  {
    OfferedPrefix(sources, i);
  }

  /** The attempts so far are those of the first sources of the plan. */
  ghost predicate Describes(sources: seq<Source>, b: Budget, attempts: seq<Attempt>) {
    |attempts| <= |sources| && forall k | 0 <= k < |attempts| :: attempts[k] == AttemptOf(sources, b, k)
  }

  lemma DescribesMore(sources: seq<Source>, b: Budget, attempts: seq<Attempt>, a: Attempt)
    requires Describes(sources, b, attempts) && |attempts| < |sources| && a == AttemptOf(sources, b, |attempts|)
    ensures Describes(sources, b, attempts + [a])
  {
    hide AttemptOf;
  }

  lemma DescribesAll(sources: seq<Source>, b: Budget, attempts: seq<Attempt>)
    requires Describes(sources, b, attempts) && |attempts| == |sources|
    ensures attempts == Attempts(sources, b)
  {
    hide AttemptOf;
  }

  /** The loop over the sources: ask while the budget lasts, and mark the rest of the plan as out of it. */
  method CollectAll(sources: seq<Source>, b: Budget) returns (attempts: seq<Attempt>, collected: seq<Hit>)
    requires b.maxSources >= 1 && b.maxCandidates >= 1
    ensures attempts == Attempts(sources, b) && collected == Collected(sources, b)
  {
    attempts, collected := [], [];
    var remaining := b.maxCandidates;
    var i := 0;
    var stopped := false;
    assert sources[..0] == [] && Take(Offered([]), b.maxCandidates) == [];
    assert Describes(sources, b, attempts);
    hide Offered, HitsOf, AttemptOf, OutOfBudget, Take, Collected, Affordable, Describes, Attempts;
    while i < |sources| && !stopped
      invariant 0 <= i <= |sources| && i <= b.maxSources && |attempts| == (if stopped then |sources| else i)
      invariant Describes(sources, b, attempts)
      invariant collected == Take(Offered(sources[..i]), b.maxCandidates)
                && remaining == b.maxCandidates - |collected| >= 0
      invariant stopped ==> i == b.maxSources || remaining == 0
      invariant !stopped ==> remaining > 0 || i == |sources|
      decreases |sources| - i, !stopped
    {
      if i >= b.maxSources || remaining <= 0 {
        attempts := Limit(sources, b, attempts, i);
        stopped := true;
      } else {
        NextSource(sources, b, i, collected, remaining);
        DescribesMore(sources, b, attempts, AttemptOf(sources, b, i));
        var s := sources[i];
        if s.reply.Unavailable? {
          attempts := attempts + [Attempt(s.ref, SourceUnavailable, 0, Some(s.reply.code))];
        } else {
          var capped := Take(s.reply.hits, remaining);
          collected := collected + capped;
          remaining := remaining - |capped|;
          attempts := attempts + [Attempt(s.ref, if capped != [] then Searched else SearchedNotFound, |capped|, None)];
          if remaining <= 0 && i + 1 < |sources| {
            attempts := Limit(sources, b, attempts, i + 1);
            stopped := true;
          }
        }
        i := i + 1;
      }
    }
    CollectedSoFar(sources, b, i, collected);
    DescribesAll(sources, b, attempts);
  }

  /** One run; the plan is rejected when a source occurs twice. */
  method Execute(c: Criteria, sources: seq<Source>, b: Budget) returns (report: Option<Report>)
    requires c.limit >= 1 && b.maxSources >= 1 && b.maxCandidates >= 1
    ensures report.Some? <==> forall i, j | 0 <= i < j < |sources| :: sources[i].ref != sources[j].ref
    ensures report.Some? ==>
              && report.value.attempts == Attempts(sources, b)
              && report.value.hits == Search.Execute(Collected(sources, b), c)
              && report.value.completeness == Verdict(report.value.attempts, report.value.hits)
  {
    if exists i, j :: 0 <= i < j < |sources| && sources[i].ref == sources[j].ref {
      return None;
    }
    if sources == [] {
      assert Offered(Affordable(sources, b)) == [];
      return Some(Report([], [], NotSearched));
    }
    var attempts, collected := CollectAll(sources, b);
    var hits := Search.Run(collected, c);
    report := Some(Report(hits, attempts, Verdict(attempts, hits)));
  }

  /** The rest of the plan, out of budget. */
  method Limit(sources: seq<Source>, b: Budget, attempts: seq<Attempt>, from: nat) returns (all: seq<Attempt>)
    requires from <= |sources| && |attempts| == from
             && (from >= b.maxSources || |Offered(sources[..from])| >= b.maxCandidates)
    requires Describes(sources, b, attempts)
    ensures |all| == |sources| && Describes(sources, b, all)
  {
    all := attempts;
    var i := from;
    while i < |sources|
      invariant from <= i <= |sources| && |all| == i
      invariant Describes(sources, b, all)
    {
      OfferedGrows(sources, from, i);
      all := all + [Attempt(sources[i].ref, BudgetLimited, 0, None)];
      i := i + 1;
    }
  }

  /** What has been collected when the loop ends is all that will be. */
  lemma CollectedSoFar(sources: seq<Source>, b: Budget, i: nat, collected: seq<Hit>)
    requires i <= |sources| && i <= b.maxSources && collected == Take(Offered(sources[..i]), b.maxCandidates)
    requires i == |sources| || i == b.maxSources || |collected| == b.maxCandidates
    ensures collected == Collected(sources, b)
  {
    var n := Min(|sources|, b.maxSources);
    assert Affordable(sources, b) == sources[..n] by { assert sources[..|sources|] == sources; }
    OfferedGrows(sources, i, n);
  }

  // ----- accounting -----

  function Total(attempts: seq<Attempt>): nat {
    if attempts == [] then 0 else Total(attempts[..|attempts| - 1]) + attempts[|attempts| - 1].count
  }

  lemma {:induction false} CountsSoFar(sources: seq<Source>, b: Budget, i: nat)
    requires i <= |sources|
    ensures Total(Attempts(sources, b)[..i]) == |Take(Offered(sources[..Min(i, b.maxSources)]), b.maxCandidates)|
    decreases i
  {
    if i > 0 {
      CountsSoFar(sources, b, i - 1);
      OfferedPrefix(sources, i - 1);
      assert Attempts(sources, b)[..i][..i - 1] == Attempts(sources, b)[..i - 1];
    }
  }

  /** Every planned source has exactly one attempt, in plan order; the counts add up to the candidates
      collected, which are never more than the budget; and the budget is what limits an attempt exactly when
      the source is out of it. */
  lemma Accounting(sources: seq<Source>, b: Budget)
    ensures var attempts := Attempts(sources, b);
            && |attempts| == |sources| && (forall i | 0 <= i < |sources| :: attempts[i].ref == sources[i].ref)
            && Total(attempts) == |Collected(sources, b)| <= b.maxCandidates
            && (forall i | 0 <= i < |sources| :: attempts[i].status == BudgetLimited <==> OutOfBudget(sources, b, i))
  {
    CountsSoFar(sources, b, |sources|);
    assert Attempts(sources, b)[..|sources|] == Attempts(sources, b);
    var n := Min(|sources|, b.maxSources);
    CollectedSoFar(sources, b, n, Take(Offered(sources[..n]), b.maxCandidates));
    forall i | 0 <= i < |sources|
      ensures AttemptOf(sources, b, i).ref == sources[i].ref
              && (AttemptOf(sources, b, i).status == BudgetLimited <==> OutOfBudget(sources, b, i))
    {}
    hide AttemptOf;
  }

  /** A COMPLETE run has asked every source and heard from every source. It has kept everything they
      offered exactly when that fits the budget: the last source may have been cut short unnoticed. */
  lemma CompleteMeansAllHeard(sources: seq<Source>, b: Budget, hits: seq<Hit>)
    requires Verdict(Attempts(sources, b), hits) == Complete
    ensures |sources| <= b.maxSources && hits != [] && (forall s | s in sources :: s.reply.Answer?)
    ensures Collected(sources, b) == Offered(sources) <==> |Offered(sources)| <= b.maxCandidates
  {
    var attempts := Attempts(sources, b);
    forall i | 0 <= i < |sources| ensures !OutOfBudget(sources, b, i) && sources[i].reply.Answer? {
      assert attempts[i] in attempts;
    }
    assert b.maxSources < |sources| ==> !OutOfBudget(sources, b, b.maxSources);
  }

  /** What a source comes to, by what the sources before it have used up: it is out of budget exactly if too many come
      before it or the candidates are full; an answer is cut to what is left of the candidates. */
  lemma AttemptOutcome(sources: seq<Source>, b: Budget, i: nat)
    requires i < |sources|
    ensures var spent := Total(Attempts(sources, b)[..i]);
            Attempts(sources, b)[i] ==
            if i >= b.maxSources || spent >= b.maxCandidates then Attempt(sources[i].ref, BudgetLimited, 0, None)
            else match sources[i].reply
              case Unavailable(code) => Attempt(sources[i].ref, SourceUnavailable, 0, Some(code))
              case Answer(hits) =>
                var left := b.maxCandidates - spent;
                var taken := if |hits| <= left then |hits| else left;
                Attempt(sources[i].ref, if taken == 0 then SearchedNotFound else Searched, taken, None)
  {
    CountsSoFar(sources, b, i);
    hide Offered;
  }

  /** The verdict of a run: nothing planned, else some source out of budget, else some source unavailable, else nothing
      found, else complete. */
  lemma VerdictOutcome(attempts: seq<Attempt>, hits: seq<Hit>)
    ensures var limited := exists i :: 0 <= i < |attempts| && attempts[i].status == BudgetLimited;
            var unheard := exists i :: 0 <= i < |attempts| && attempts[i].status == SourceUnavailable;
            && (Verdict(attempts, hits) == NotSearched <==> |attempts| == 0)
            && (Verdict(attempts, hits) == Limited <==> limited)
            && (Verdict(attempts, hits) == Unreachable <==> unheard && !limited)
            && (Verdict(attempts, hits) == NotFound <==> |attempts| > 0 && !unheard && !limited && |hits| == 0)
            && (Verdict(attempts, hits) == Complete <==> |attempts| > 0 && !unheard && !limited && |hits| > 0)
  {
    assert (exists a :: a in attempts && a.status == BudgetLimited)
           <==> exists i :: 0 <= i < |attempts| && attempts[i].status == BudgetLimited;
    assert (exists a :: a in attempts && a.status == SourceUnavailable)
           <==> exists i :: 0 <= i < |attempts| && attempts[i].status == SourceUnavailable;
  }
}
