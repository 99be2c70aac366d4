/**
 * The seven POIs the campus map starts with, and what the filter makes of
 * them for the sidebar settings a user is most likely to try.
 */
module SeedPois {
  import opened Options
  import opened Places
  import opened Text
  import opened PoiFilter

  const MainLibrary := POI("1", "Main Library", Academic, Coord(0.3476, 32.5825),
    "Central library with study spaces, computer labs, and research materials", true, true,
    Some("6:00 AM - 10:00 PM"), None)
  const StudentCenter := POI("2", "Student Center", Services, Coord(0.3478, 32.5827),
    "Student services, registrar, financial aid, and student organizations", true, true,
    Some("8:00 AM - 5:00 PM"), None)
  const BusinessSchool := POI("3", "Business School", Academic, Coord(0.3480, 32.5830),
    "Main business administration building with lecture halls and faculty offices", true, false,
    Some("7:00 AM - 9:00 PM"), None)
  const UniversityCafeteria := POI("4", "University Cafeteria", Dining, Coord(0.3474, 32.5828),
    "Main dining facility with various food options", true, true,
    Some("6:30 AM - 8:00 PM"), None)
  const SportsComplex := POI("5", "Sports Complex", Recreation, Coord(0.3485, 32.5832),
    "Gymnasium, swimming pool, and outdoor sports facilities", false, false,
    Some("6:00 AM - 10:00 PM"), None)
  const MedicalCenter := POI("6", "Medical Center", Emergency, Coord(0.3472, 32.5824),
    "Campus health services and emergency medical care", true, true,
    Some("24/7"), None)
  const ShuttleStop := POI("7", "Shuttle Stop - Main Gate", Transportation, Coord(0.3470, 32.5820),
    "Main campus shuttle stop and taxi pickup point", true, true,
    Some("5:30 AM - 11:00 PM"), None)

  /** The initial POI list, in the order the sidebar lists it. */
  function InitialPois(): (r: seq<POI>)
    ensures |r| == 7
    ensures forall i, j :: 0 <= i < j < |r| ==> r[i].id != r[j].id
  {
    [MainLibrary, StudentCenter, BusinessSchool, UniversityCafeteria, SportsComplex, MedicalCenter, ShuttleStop]
  }

  /** The part of the filtered list that one POI contributes. */
  function Keep(p: POI, searchTerm: string, category: CategoryFilter, essentialsOnly: bool, accessibleOnly: bool): (r: seq<POI>)
    ensures r == [p] || r == []
  {
    if Matches(p, searchTerm, category, essentialsOnly, accessibleOnly) then [p] else []
  }

  /** One step of the filter: the head of the list is kept exactly when it matches. */
  lemma FilterCons(p: POI, rest: seq<POI>, searchTerm: string, category: CategoryFilter,
                   essentialsOnly: bool, accessibleOnly: bool)
    ensures Filter([p] + rest, searchTerm, category, essentialsOnly, accessibleOnly)
         == Keep(p, searchTerm, category, essentialsOnly, accessibleOnly)
            + Filter(rest, searchTerm, category, essentialsOnly, accessibleOnly)
  {
    assert ([p] + rest)[1..] == rest;
  }

  /** A seven-POI list, such as the seed list, filtered one POI at a time. */
  lemma FilterSeven(p1: POI, p2: POI, p3: POI, p4: POI, p5: POI, p6: POI, p7: POI,
                    t: string, c: CategoryFilter, e: bool, a: bool)
    ensures Filter([p1, p2, p3, p4, p5, p6, p7], t, c, e, a)
         == Keep(p1, t, c, e, a) + (Keep(p2, t, c, e, a) + (Keep(p3, t, c, e, a) + (Keep(p4, t, c, e, a)
            + (Keep(p5, t, c, e, a) + (Keep(p6, t, c, e, a) + Keep(p7, t, c, e, a))))))
  {
    var s7 := [p7];
    var s6 := [p6] + s7;
    var s5 := [p5] + s6;
    var s4 := [p4] + s5;
    var s3 := [p3] + s4;
    var s2 := [p2] + s3;
    var s1 := [p1] + s2;
    assert s1 == [p1, p2, p3, p4, p5, p6, p7];
    FilterCons(p7, [], t, c, e, a);
    assert [p7] + [] == s7;
    FilterCons(p6, s7, t, c, e, a);
    FilterCons(p5, s6, t, c, e, a);
    FilterCons(p4, s5, t, c, e, a);
    FilterCons(p3, s4, t, c, e, a);
    FilterCons(p2, s3, t, c, e, a);
    FilterCons(p1, s2, t, c, e, a);
  }

  /** A seven-POI list whose per-POI contributions are known filters to their concatenation. */
  lemma FilterSevenKnown(p1: POI, p2: POI, p3: POI, p4: POI, p5: POI, p6: POI, p7: POI,
                         t: string, c: CategoryFilter, e: bool, a: bool,
                         r1: seq<POI>, r2: seq<POI>, r3: seq<POI>, r4: seq<POI>, r5: seq<POI>, r6: seq<POI>, r7: seq<POI>)
    requires Keep(p1, t, c, e, a) == r1 && Keep(p2, t, c, e, a) == r2 && Keep(p3, t, c, e, a) == r3
    requires Keep(p4, t, c, e, a) == r4 && Keep(p5, t, c, e, a) == r5 && Keep(p6, t, c, e, a) == r6
    requires Keep(p7, t, c, e, a) == r7
    ensures Filter([p1, p2, p3, p4, p5, p6, p7], t, c, e, a) == r1 + (r2 + (r3 + (r4 + (r5 + (r6 + r7)))))
  {
    FilterSeven(p1, p2, p3, p4, p5, p6, p7, t, c, e, a);
  }

  /** With an empty search term, a POI is kept when it passes the category and the flags. */
  lemma KeepWithoutSearch(p: POI, c: CategoryFilter, e: bool, a: bool)
    requires MatchesCategory(p, c) && (!e || p.isEssential) && (!a || p.isAccessible)
    ensures Keep(p, "", c, e, a) == [p]
  {
    IncludesEmpty(LowerStr(p.name));
  }

  /** A POI of another category is dropped. */
  lemma DropOtherCategory(p: POI, t: string, category: Category, e: bool, a: bool)
    requires p.category != category
    ensures Keep(p, t, OnlyCategory(category), e, a) == []
  {
  }

  /** A POI lacking a flagged property is dropped. */
  lemma DropUnflagged(p: POI, t: string, c: CategoryFilter, e: bool, a: bool)
    requires (e && !p.isEssential) || (a && !p.isAccessible)
    ensures Keep(p, t, c, e, a) == []
  {
  }

  /** Selecting the dining category alone shows exactly the cafeteria. */
  lemma DiningShowsCafeteria()
    ensures Filter(InitialPois(), "", OnlyCategory(Dining), false, false) == [UniversityCafeteria]
  {
    var c := OnlyCategory(Dining);
    DropOtherCategory(MainLibrary, "", Dining, false, false);
    DropOtherCategory(StudentCenter, "", Dining, false, false);
    DropOtherCategory(BusinessSchool, "", Dining, false, false);
    KeepWithoutSearch(UniversityCafeteria, c, false, false);
    DropOtherCategory(SportsComplex, "", Dining, false, false);
    DropOtherCategory(MedicalCenter, "", Dining, false, false);
    DropOtherCategory(ShuttleStop, "", Dining, false, false);
    FilterSevenKnown(MainLibrary, StudentCenter, BusinessSchool, UniversityCafeteria, SportsComplex, MedicalCenter, ShuttleStop,
                     "", c, false, false, [], [], [], [UniversityCafeteria], [], [], []);
  }

  /** Both flags on shows the five POIs that are essential and accessible, in list order. */
  lemma EssentialAndAccessible()
    ensures Filter(InitialPois(), "", AllCategories, true, true)
         == [MainLibrary, StudentCenter, UniversityCafeteria, MedicalCenter, ShuttleStop]
  {
    var c := AllCategories;
    KeepWithoutSearch(MainLibrary, c, true, true);
    KeepWithoutSearch(StudentCenter, c, true, true);
    DropUnflagged(BusinessSchool, "", c, true, true);
    KeepWithoutSearch(UniversityCafeteria, c, true, true);
    DropUnflagged(SportsComplex, "", c, true, true);
    KeepWithoutSearch(MedicalCenter, c, true, true);
    KeepWithoutSearch(ShuttleStop, c, true, true);
    FilterSevenKnown(MainLibrary, StudentCenter, BusinessSchool, UniversityCafeteria, SportsComplex, MedicalCenter, ShuttleStop,
                     "", c, true, true, [MainLibrary], [StudentCenter], [], [UniversityCafeteria], [], [MedicalCenter], [ShuttleStop]);
    DropTwo(MainLibrary, StudentCenter, UniversityCafeteria, MedicalCenter, ShuttleStop);
  }

  // The lemmas from here down to LibraryNowhereElse are proof steps for the
  // scenario lemmas about the seed data. Each states one small fact about
  // literal values, so that the solver checks those facts one at a time.

  /** The shape of a seven-step result whose third and fifth steps contributed nothing. */
  lemma DropTwo(p1: POI, p2: POI, p4: POI, p6: POI, p7: POI)
    ensures [p1] + ([p2] + ([] + ([p4] + ([] + ([p6] + [p7]))))) == [p1, p2, p4, p6, p7]
  {
  }

  /** A name lacking a letter of the search term, in either case, does not match the search. */
  lemma MissingLetter(p: POI, t: string, ch: char)
    requires 'a' <= ch <= 'z' && ch in LowerStr(t)
    requires ch !in p.name && (ch as int - 32) as char !in p.name
    ensures !MatchesSearch(p, t)
  {
    LowerStrAvoids(p.name, ch);
    NotIncludesMissingChar(LowerStr(p.name), LowerStr(t), ch);
  }

  /** "library" is lower-case already. */
  lemma LibraryIsLowerCase()
    ensures LowerStr("library") == "library"
  {
  }

  /** The main library's name, lower-cased. */
  lemma MainLibraryLowerCased()
    ensures LowerStr("Main Library") == "main library"
  {
  }

  /** The term "library" occurs in "Main Library" once both are lower-cased. */
  lemma LibraryInMainLibrary(t: string)
    requires t == "library"
    ensures MatchesSearch(MainLibrary, t)
  {
    LibraryIsLowerCase();
    MainLibraryLowerCased();
    assert OccursAt("main library", LowerStr(t), 5);
    IncludesIffOccurs("main library", LowerStr(t));
  }

  // The letters missing from the other seed names, in either case, one name at a time.

  lemma NoYInStudentCenter()
    ensures 'y' !in "Student Center" && 'Y' !in "Student Center"
  {
  }

  lemma NoYInBusinessSchool()
    ensures 'y' !in "Business School" && 'Y' !in "Business School"
  {
  }

  lemma NoBInUniversityCafeteria()
    ensures 'b' !in "University Cafeteria" && 'B' !in "University Cafeteria"
  {
  }

  lemma NoYInSportsComplex()
    ensures 'y' !in "Sports Complex" && 'Y' !in "Sports Complex"
  {
  }

  lemma NoYInMedicalCenter()
    ensures 'y' !in "Medical Center" && 'Y' !in "Medical Center"
  {
  }

  lemma NoYInShuttleStop()
    ensures 'y' !in "Shuttle Stop - Main Gate" && 'Y' !in "Shuttle Stop - Main Gate"
  {
  }

  /** No other seed name contains the term "library": each lacks its 'y' or its 'b'. */
  lemma LibraryNowhereElse(t: string)
    requires t == "library"
    ensures !MatchesSearch(StudentCenter, t) && !MatchesSearch(BusinessSchool, t)
    ensures !MatchesSearch(UniversityCafeteria, t) && !MatchesSearch(SportsComplex, t)
    ensures !MatchesSearch(MedicalCenter, t) && !MatchesSearch(ShuttleStop, t)
  {
    LibraryIsLowerCase();
    assert LowerStr(t)[6] == 'y' && LowerStr(t)[2] == 'b';
    NoYInStudentCenter();
    NoYInBusinessSchool();
    NoBInUniversityCafeteria();
    NoYInSportsComplex();
    NoYInMedicalCenter();
    NoYInShuttleStop();
    MissingLetter(StudentCenter, t, 'y');
    MissingLetter(BusinessSchool, t, 'y');
    MissingLetter(UniversityCafeteria, t, 'b');
    MissingLetter(SportsComplex, t, 'y');
    MissingLetter(MedicalCenter, t, 'y');
    MissingLetter(ShuttleStop, t, 'y');
  }

  /**
   * Searching for "library" shows exactly the main library. The term is a
   * parameter fixed by the precondition rather than a literal, so that the
   * solver does not unfold the search over the literal names on its own.
   */
  lemma SearchLibrary(t: string)
    requires t == "library"
    ensures Filter(InitialPois(), t, AllCategories, false, false) == [MainLibrary]
  {
    LibraryInMainLibrary(t);
    LibraryNowhereElse(t);
    FilterSevenKnown(MainLibrary, StudentCenter, BusinessSchool, UniversityCafeteria, SportsComplex, MedicalCenter, ShuttleStop,
                     t, AllCategories, false, false, [MainLibrary], [], [], [], [], [], []);
  }
}
