/**
 * The report list: which reports its live query asks for, the status
 * filter buttons, and the per-report labels (status colour, severity
 * word, category title, location text).
 */
module ReportList {
  import opened Wrappers
  import opened ReportStore
  import ReportForm

  const ALL := "all"

  /**
   * `filteredReports`: filter `all` shows every report; any other filter
   * shows exactly the reports holding that status, in their order.
   */
  function FilterReports(reports: seq<Report>, filter: string): (shown: seq<Report>)
    ensures filter == ALL ==> shown == reports
    ensures filter != ALL ==> forall x :: x in shown ==> x in reports && x.status == filter
    ensures filter != ALL ==> forall x: Report :: x.status == filter ==> multiset(shown)[x] == multiset(reports)[x]
  {
    if filter == ALL then reports else WithStatusCounts(reports, filter); WithStatus(reports, filter)
  }

  /** The filter never reorders: what it shows is a subsequence of the list. */
  lemma FilterKeepsOrder(reports: seq<Report>, filter: string)
    ensures SubsequenceOf(FilterReports(reports, filter), reports)
  {
    if filter == ALL {
      SubsequenceOfSelf(reports);
    } else {
      WithStatusKeepsOrder(reports, filter);
    }
  }

  lemma {:induction false} SubsequenceOfSelf<T>(s: seq<T>)
    ensures SubsequenceOf(s, s)
  {
    if s != [] {
      SubsequenceOfSelf(s[1..]);
    }
  }

  /**
   * The live query: restricted to the signed-in user's own reports only
   * when the list is asked to filter by user and a user (with id `uid`) is
   * present; newest first in both cases.
   */
  function QueryFor(filterByUser: bool, uid: Option<string>): (q: Query)
    ensures q.newestFirst && q.statusIn.None?
    ensures filterByUser && uid.Some? ==> forall r :: Admits(q, r) <==> r.userId == uid.value
    ensures !(filterByUser && uid.Some?) ==> forall r :: Admits(q, r)
  {
    if filterByUser && uid.Some? then Query(Some(uid.value), None, true) else Query(None, None, true)
  }

  /** A snapshot of a user-filtered list holds only that user's reports. */
  lemma OwnListIsOwn(uid: string, store: Store, snap: seq<Report>, r: Report)
    requires IsSnapshot(QueryFor(true, Some(uid)), store, snap) && r in snap
    ensures r.userId == uid
  {
    SnapshotAdmitted(QueryFor(true, Some(uid)), store, snap, r);
  }

  const DEFAULT_STATUS_CLASS := "bg-gray-100 text-gray-800"

  /** The status pill classes of the list. */
  function StatusClass(status: string): (c: string)
    ensures status == DRAFT ==> c == DEFAULT_STATUS_CLASS
    ensures status !in {DRAFT, SUBMITTED, IN_REVIEW, RESOLVED, ARCHIVED} ==> c == DEFAULT_STATUS_CLASS
    ensures status in {SUBMITTED, IN_REVIEW, RESOLVED, ARCHIVED} ==> c != DEFAULT_STATUS_CLASS
  {
    if status == DRAFT then DEFAULT_STATUS_CLASS
    else if status == SUBMITTED then "bg-blue-100 text-blue-800"
    else if status == IN_REVIEW then "bg-yellow-100 text-yellow-800"
    else if status == RESOLVED then "bg-green-100 text-green-800"
    else if status == ARCHIVED then "bg-gray-100 text-gray-600"
    else DEFAULT_STATUS_CLASS
  }

  /** The four known statuses other than Draft get four different classes. */
  lemma StatusClassesDistinct(a: string, b: string)
    requires a in {SUBMITTED, IN_REVIEW, RESOLVED, ARCHIVED} && b in {SUBMITTED, IN_REVIEW, RESOLVED, ARCHIVED}
    requires a != b
    ensures StatusClass(a) != StatusClass(b)
  {
  }

  /** `getSeverityLabel`: a word per level 1 to 4, `Unknown` for anything else. */
  function SeverityLabel(severity: Option<int>): (word: string)
    ensures word == "Unknown" <==> !(severity.Some? && 1 <= severity.value <= 4)
    ensures severity == Some(1) ==> word == "Low"
    ensures severity == Some(2) ==> word == "Medium"
    ensures severity == Some(3) ==> word == "High"
    ensures severity == Some(4) ==> word == "Critical"
  {
    match severity
    case Some(1) => "Low"
    case Some(2) => "Medium"
    case Some(3) => "High"
    case Some(4) => "Critical"
    case _ => "Unknown"
  }

  // ------------------------------------------------------- category labels

  /** A character matched by the regular expression class `\w`. */
  predicate IsWordChar(c: char)
  {
    ('a' <= c <= 'z') || ('A' <= c <= 'Z') || ('0' <= c <= '9') || c == '_'
  }

  /** `toUpperCase` on a single ASCII character. */
  function UpperAscii(c: char): (u: char)
    ensures 'a' <= c <= 'z' ==> 'A' <= u <= 'Z' && u as int == c as int - 32
    ensures !('a' <= c <= 'z') ==> u == c
  {
    if 'a' <= c <= 'z' then (c as int - 32) as char else c
  }

  /** `s.indexOf(c)`, with `|s|` standing for "not found". */
  function IndexOf(s: string, c: char): (k: nat)
    ensures k <= |s| && c !in s[..k]
    ensures k < |s| ==> s[k] == c
  {
    if s == [] || s[0] == c then 0
    else
      var k := IndexOf(s[1..], c);
      assert s[..k + 1] == [s[0]] + s[1..][..k];
      k + 1
  }

  /** `s.replace(from, to)` with a string pattern: only the first occurrence is replaced. */
  function ReplaceFirst(s: string, from: char, to: char): (r: string)
    ensures |r| == |s|
    ensures IndexOf(s, from) == |s| ==> r == s
    ensures IndexOf(s, from) < |s| ==>
              r == s[..IndexOf(s, from)] + [to] + s[IndexOf(s, from) + 1..]
  {
    if s == [] then []
    else if s[0] == from then [to] + s[1..]
    else
      assert s == [s[0]] + s[1..];
      [s[0]] + ReplaceFirst(s[1..], from, to)
  }

  /** Position `i` of `s` starts a word: `\b\w` matches there. */
  predicate StartsWord(s: string, i: int)
    requires 0 <= i < |s|
  {
    IsWordChar(s[i]) && (i == 0 || !IsWordChar(s[i - 1]))
  }

  /**
   * `s.replace(/\b\w/g, l => l.toUpperCase())`, with `afterWord` telling
   * whether the character before `s` is a word character.
   */
  function CapitalizeWordsFrom(s: string, afterWord: bool): (r: string)
    ensures |r| == |s|
    ensures forall i :: 0 < i < |s| ==> r[i] == if StartsWord(s, i) then UpperAscii(s[i]) else s[i]
    ensures s != [] ==> r[0] == if IsWordChar(s[0]) && !afterWord then UpperAscii(s[0]) else s[0]
  {
    if s == [] then []
    else
      var head := if IsWordChar(s[0]) && !afterWord then UpperAscii(s[0]) else s[0];
      var rest := CapitalizeWordsFrom(s[1..], IsWordChar(s[0]));
      assert forall i :: 1 < i < |s| ==> StartsWord(s, i) == StartsWord(s[1..], i - 1);
      [head] + rest
  }

  /** Every word-initial character is upper-cased, every other one is kept. */
  function CapitalizeWords(s: string): (r: string)
    ensures |r| == |s|
    ensures forall i :: 0 <= i < |s| ==> r[i] == if StartsWord(s, i) then UpperAscii(s[i]) else s[i]
  {
    CapitalizeWordsFrom(s, false)
  }

  /**
   * The category shown on a card: the first `_` becomes a space, then each
   * word starts with a capital; a missing category shows nothing.
   */
  function CategoryLabel(category: Option<string>): (title: Option<string>)
    ensures title.Some? <==> category.Some?
  {
    match category
    case None => None
    case Some(c) => Some(CapitalizeWords(ReplaceFirst(c, '_', ' ')))
  }

  /** A non-empty run of lower-case ASCII letters. */
  predicate LowerWord(w: string)
  {
    w != [] && forall i :: 0 <= i < |w| ==> 'a' <= w[i] <= 'z'
  }

  /** `w` with its first letter upper-cased. */
  function Capitalized(w: string): string
    requires w != []
  {
    [UpperAscii(w[0])] + w[1..]
  }

  lemma {:induction false} IndexOfAt(s: string, c: char, k: nat)
    requires k < |s| && s[k] == c && c !in s[..k]
    ensures IndexOf(s, c) == k
  {
    if k > 0 {
      assert s[0] == s[..k][0];
      var rest := s[1..][..k - 1];
      forall j | 0 <= j < k - 1
        ensures rest[j] != c
      {
        assert rest[j] == s[..k][j + 1];
      }
      IndexOfAt(s[1..], c, k - 1);
    }
  }

  /** A one-word category is shown with a capital initial. */
  lemma OneWordLabel(a: string)
    requires LowerWord(a)
    ensures CategoryLabel(Some(a)) == Some(Capitalized(a))
  {
    assert ReplaceFirst(a, '_', ' ') == a;
    var r := CapitalizeWords(a);
    var e := Capitalized(a);
    assert |r| == |e|;
    forall i | 0 <= i < |r|
      ensures r[i] == e[i]
    {
      if i > 0 {
        assert !StartsWord(a, i);
      }
    }
    assert r == e;
  }

  /**
   * A two-word category `a_b` is shown as the two words, each with a
   * capital initial, separated by a space.
   */
  lemma TwoWordLabel(a: string, b: string)
    requires LowerWord(a) && LowerWord(b)
    ensures CategoryLabel(Some(a + "_" + b)) == Some(Capitalized(a) + " " + Capitalized(b))
  {
    var s := a + "_" + b;
    assert s[..|a|] == a;
    IndexOfAt(s, '_', |a|);
    var t := ReplaceFirst(s, '_', ' ');
    assert t == a + " " + b;
    var r := CapitalizeWords(t);
    var e := Capitalized(a) + " " + Capitalized(b);
    assert |r| == |e|;
    forall i | 0 <= i < |r|
      ensures r[i] == e[i]
    {
      if i < |a| {
        assert t[i] == a[i];
      } else if i > |a| {
        assert t[i] == b[i - |a| - 1];
      }
    }
    assert r == e;
  }

  lemma CapitalizedIs(w: string, cap: string)
    requires w != [] && cap != [] && cap[0] == UpperAscii(w[0]) && cap[1..] == w[1..]
    ensures Capitalized(w) == cap
  {
    assert cap == [cap[0]] + cap[1..];
  }

  lemma ValuesSpelledOut()
    ensures "waste" + "_" + "dumping" == "waste_dumping"
    ensures "air" + "_" + "pollution" == "air_pollution"
    ensures "water" + "_" + "pollution" == "water_pollution"
    ensures "vehicle" + "_" + "emissions" == "vehicle_emissions"
    ensures "industrial" + "_" + "emissions" == "industrial_emissions"
  {
  }

  lemma TitlesSpelledOut()
    ensures "Waste" + " " + "Dumping" == "Waste Dumping"
    ensures "Air" + " " + "Pollution" == "Air Pollution"
    ensures "Water" + " " + "Pollution" == "Water Pollution"
    ensures "Vehicle" + " " + "Emissions" == "Vehicle Emissions"
    ensures "Industrial" + " " + "Emissions" == "Industrial Emissions"
  {
  }

  /** A two-word category whose title capitalizes both words is shown under that title. */
  lemma TwoWordTitle(a: string, b: string, titleA: string, titleB: string)
    requires LowerWord(a) && LowerWord(b) && titleA != [] && titleB != []
    requires titleA[0] == UpperAscii(a[0]) && titleA[1..] == a[1..]
    requires titleB[0] == UpperAscii(b[0]) && titleB[1..] == b[1..]
    ensures CategoryLabel(Some(a + "_" + b)) == Some(titleA + " " + titleB)
  {
    TwoWordLabel(a, b);
    CapitalizedIs(a, titleA);
    CapitalizedIs(b, titleB);
  }

  /** Every category the form offers is shown on the list under the title the form gives it. */
  lemma CategoryTitlesMatchOptions(i: nat)
    requires i < |ReportForm.CATEGORIES|
    ensures CategoryLabel(Some(ReportForm.CATEGORIES[i].0)) == Some(ReportForm.CATEGORIES[i].1)
  {
    var c := ReportForm.CATEGORIES[i];
    if i == 0 {
      assert c == ("waste_dumping", "Waste Dumping");
      WasteDumpingTitle();
    } else if i == 1 {
      assert c == ("air_pollution", "Air Pollution");
      AirPollutionTitle();
    } else if i == 2 {
      assert c == ("water_pollution", "Water Pollution");
      WaterPollutionTitle();
    } else if i == 3 {
      assert c == ("vehicle_emissions", "Vehicle Emissions");
      VehicleEmissionsTitle();
    } else if i == 4 {
      assert c == ("industrial_emissions", "Industrial Emissions");
      IndustrialEmissionsTitle();
    } else {
      assert c == ("other", "Other");
      OneWordLabel("other");
      CapitalizedIs("other", "Other");
    }
  }

  lemma WasteDumpingTitle()
    ensures CategoryLabel(Some("waste_dumping")) == Some("Waste Dumping")
  {
    ValuesSpelledOut();
    TitlesSpelledOut();
    TwoWordTitle("waste", "dumping", "Waste", "Dumping");
  }

  lemma AirPollutionTitle()
    ensures CategoryLabel(Some("air_pollution")) == Some("Air Pollution")
  {
    ValuesSpelledOut();
    TitlesSpelledOut();
    TwoWordTitle("air", "pollution", "Air", "Pollution");
  }

  lemma WaterPollutionTitle()
    ensures CategoryLabel(Some("water_pollution")) == Some("Water Pollution")
  {
    ValuesSpelledOut();
    TitlesSpelledOut();
    TwoWordTitle("water", "pollution", "Water", "Pollution");
  }

  lemma VehicleEmissionsTitle()
    ensures CategoryLabel(Some("vehicle_emissions")) == Some("Vehicle Emissions")
  {
    ValuesSpelledOut();
    TitlesSpelledOut();
    TwoWordTitle("vehicle", "emissions", "Vehicle", "Emissions");
  }

  lemma IndustrialEmissionsTitle()
    ensures CategoryLabel(Some("industrial_emissions")) == Some("Industrial Emissions")
  {
    ValuesSpelledOut();
    TitlesSpelledOut();
    TwoWordTitle("industrial", "emissions", "Industrial", "Emissions");
  }

  /** The location line of a card: the coordinates, or a fixed placeholder. */
  datatype LocationText = Placeholder(text: string) | Coordinates(latitude: real, longitude: real)

  function LocationLabel(coords: Option<Coords>): (t: LocationText)
    ensures t.Placeholder? <==> coords.None?
    ensures t.Placeholder? ==> t.text == "Location not specified"
    ensures t.Coordinates? ==> t.latitude == coords.value.latitude && t.longitude == coords.value.longitude
  {
    match coords
    case None => Placeholder("Location not specified")
    case Some(c) => Coordinates(c.latitude, c.longitude)
  }

  /** The list component's state: both fields are only ever replaced wholesale. */
  class ReportListView {
    var reports: seq<Report>
    var filter: string
    var loading: bool

    constructor ()
      ensures reports == [] && filter == ALL && loading
      ensures Shown() == []
    {
      reports := [];
      filter := ALL;
      loading := true;
    }

    /** The cards on display. */
    function Shown(): seq<Report>
      reads this
    {
      FilterReports(reports, filter)
    }

    /** The number on the "All Reports" button. */
    function AllCount(): nat
      reads this
    {
      |reports|
    }

    method OnSnapshot(snapshot: seq<Report>)
      modifies this`reports, this`loading
      ensures reports == snapshot && !loading
      ensures Shown() == FilterReports(snapshot, filter)
    {
      reports := snapshot;
      loading := false;
    }

    /** Clicking a filter button changes what is shown, never the "All Reports" count. */
    method SetFilter(f: string)
      modifies this`filter
      ensures filter == f
      ensures Shown() == FilterReports(reports, f)
      ensures AllCount() == old(AllCount())
    {
      filter := f;
    }
  }
}
