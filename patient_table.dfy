/**
 * The patients table: the display fallbacks for each column, the search and
 * status filter, the page slice, the page and rows-per-page state, the status
 * chip colours and the avatar colour and letter.
 */
module PatientTable {
  import opened Wrappers
  import opened Text

  datatype Device = Device(platform: string, deviceName: string)

  /** The nested `user` record, as far as the table reads it. */
  datatype PatientUser = PatientUser(email: Option<string>, phone: Option<string>, state: Option<string>, devices: Option<seq<Device>>)

  /** A patient row, as far as the table reads it; `user` may be missing (`patient.user?.…`). */
  datatype Patient = Patient(
    id: int, firstName: Option<string>, lastName: Option<string>, email: Option<string>,
    phone: Option<string>, patientId: string, state: Option<string>, status: string,
    user: Option<PatientUser>)

  const NoEmail := "No email"
  const NoPhone := "No phone"
  const UnknownText := "Unknown"
  const AllStatuses := "all"

  /**
   * `getPatientName`: the trimmed full name when either part is present;
   * otherwise the email, the patient number, or `Patient <id>`.
   */
  function PatientName(p: Patient): (r: string)
    ensures Truthy(p.firstName) || Truthy(p.lastName) ==> r == Trim(Or(p.firstName, "") + " " + Or(p.lastName, ""))
    ensures r == "" || (!IsSpace(r[0]) && !IsSpace(r[|r| - 1])) || !(Truthy(p.firstName) || Truthy(p.lastName))
    ensures !(Truthy(p.firstName) || Truthy(p.lastName)) ==> r != ""
    ensures !(Truthy(p.firstName) || Truthy(p.lastName)) ==>
              r == (if Truthy(p.email) then p.email.value
                    else if p.patientId != "" then p.patientId
                    else "Patient " + IntToString(p.id))
  {
    if Truthy(p.firstName) || Truthy(p.lastName) then
      Trim(Or(p.firstName, "") + " " + Or(p.lastName, ""))
    else
      Or(p.email, Or(Some(p.patientId), "Patient " + IntToString(p.id)))
  }

  /** A patient's name is blank only when the name parts it was built from are whitespace. */
  lemma PatientNameBlankOnlyForBlankNames(p: Patient)
    ensures PatientName(p) == "" <==> (Truthy(p.firstName) || Truthy(p.lastName))
                                      && AllSpace(Or(p.firstName, "")) && AllSpace(Or(p.lastName, ""))
  {
    var full := Or(p.firstName, "") + " " + Or(p.lastName, "");
    TrimEmptyIffAllSpace(full);
    var f, l := Or(p.firstName, ""), Or(p.lastName, "");
    if AllSpace(full) {
      forall i | 0 <= i < |f| ensures IsSpace(f[i]) { assert f[i] == full[i]; }
      forall i | 0 <= i < |l| ensures IsSpace(l[i]) { assert l[i] == full[|f| + 1 + i]; }
    }
    if AllSpace(f) && AllSpace(l) {
      forall i | 0 <= i < |full| ensures IsSpace(full[i]) {
        if i < |f| { assert full[i] == f[i]; }
        else if i > |f| { assert full[i] == l[i - |f| - 1]; }
      }
    }
  }

  function UserEmail(p: Patient): Option<string> { if p.user.Some? then p.user.value.email else None }
  function UserPhone(p: Patient): Option<string> { if p.user.Some? then p.user.value.phone else None }
  function UserState(p: Patient): Option<string> { if p.user.Some? then p.user.value.state else None }

  /** `getPatientEmail`: the patient's email, else the user's, else `No email`; never empty. */
  function PatientEmail(p: Patient): (r: string)
    ensures r != ""
    ensures Truthy(p.email) ==> r == p.email.value
    ensures !Truthy(p.email) && Truthy(UserEmail(p)) ==> r == UserEmail(p).value
    ensures !Truthy(p.email) && !Truthy(UserEmail(p)) ==> r == NoEmail
  {
    Or(p.email, Or(UserEmail(p), NoEmail))
  }

  /** `getPatientPhone`: the patient's phone, else the user's, else `No phone`; never empty. */
  function PatientPhone(p: Patient): (r: string)
    ensures r != ""
    ensures Truthy(p.phone) ==> r == p.phone.value
    ensures !Truthy(p.phone) && Truthy(UserPhone(p)) ==> r == UserPhone(p).value
    ensures !Truthy(p.phone) && !Truthy(UserPhone(p)) ==> r == NoPhone
  {
    Or(p.phone, Or(UserPhone(p), NoPhone))
  }

  /** `getPatientLocation`: the patient's state, else the user's, else `Unknown`; never empty. */
  function PatientLocation(p: Patient): (r: string)
    ensures r != ""
    ensures Truthy(p.state) ==> r == p.state.value
    ensures !Truthy(p.state) && Truthy(UserState(p)) ==> r == UserState(p).value
    ensures !Truthy(p.state) && !Truthy(UserState(p)) ==> r == UnknownText
  {
    Or(p.state, Or(UserState(p), UnknownText))
  }

  /** `patient.user?.devices || []`: the user's device list when there is one, else none. */
  function Devices(p: Patient): (r: seq<Device>)
    ensures p.user.Some? && p.user.value.devices.Some? ==> r == p.user.value.devices.value
    ensures p.user.None? || p.user.value.devices.None? ==> r == []
  {
    if p.user.Some? && p.user.value.devices.Some? then p.user.value.devices.value else []
  }

  /** `getPatientDevice`: the first device's name, else its platform, else `Unknown`; never empty. */
  function PatientDevice(p: Patient): (r: string)
    ensures r != ""
    ensures Devices(p) == [] ==> r == UnknownText
    ensures Devices(p) != [] && Devices(p)[0].deviceName != "" ==> r == Devices(p)[0].deviceName
    ensures Devices(p) != [] && Devices(p)[0].deviceName == "" && Devices(p)[0].platform != "" ==> r == Devices(p)[0].platform
    ensures Devices(p) != [] && Devices(p)[0].deviceName == "" && Devices(p)[0].platform == "" ==> r == UnknownText
  {
    var devices := Devices(p);
    if |devices| > 0 then Or(Some(devices[0].deviceName), Or(Some(devices[0].platform), UnknownText))
    else UnknownText
  }

  /**
   * The search test: the query, lower-cased, inside the lower-cased name,
   * email or location, or the query as typed inside the phone.
   */
  function MatchesSearch(p: Patient, query: string): (b: bool)
    ensures b <==> Includes(Lower(PatientName(p)), Lower(query)) || Includes(Lower(PatientEmail(p)), Lower(query))
                   || Includes(PatientPhone(p), query) || Includes(Lower(PatientLocation(p)), Lower(query))
  {
    var q := Lower(query);
    Includes(Lower(PatientName(p)), q)
    || Includes(Lower(PatientEmail(p)), q)
    || (PatientPhone(p) != "" && Includes(PatientPhone(p), query))
    || Includes(Lower(PatientLocation(p)), q)
  }

  /** The status test: "all" passes every patient; any other filter only the patients whose status is exactly that text. */
  function MatchesStatus(p: Patient, statusFilter: string): (b: bool)
    ensures statusFilter == AllStatuses ==> b
    ensures statusFilter != AllStatuses ==> (b <==> p.status == statusFilter)
  {
    statusFilter == AllStatuses || p.status == statusFilter
  }

  /** The filter callback: a patient is kept when both the search and the status test pass. */
  function Keep(p: Patient, query: string, statusFilter: string): (b: bool)
    ensures statusFilter == AllStatuses ==> (b <==> MatchesSearch(p, query))
    ensures b <==> MatchesSearch(p, query) && (statusFilter == AllStatuses || p.status == statusFilter)
    ensures b ==> statusFilter == AllStatuses || p.status == statusFilter
  {
    MatchesSearch(p, query) && MatchesStatus(p, statusFilter)
  }

  /** The empty query matches every patient; the phone's non-empty guard never fails. */
  lemma EmptyQueryMatchesAll(p: Patient)
    ensures MatchesSearch(p, "")
    ensures PatientPhone(p) != ""
  {
    IncludesEmpty(Lower(PatientName(p)));
  }

  /** Search ignores the case of the query for name, email and location. */
  lemma SearchIgnoresQueryCase(p: Patient, query: string)
    requires Includes(Lower(PatientName(p)), Lower(query))
    ensures MatchesSearch(p, Upper(query)) && MatchesSearch(p, query)
  {
    LowerOfUpper(query);
  }

  /** `data.filter(keep)`: the patients `keep` accepts, in their original order. */
  function FilterBy(data: seq<Patient>, keep: Patient -> bool): (r: seq<Patient>)
    ensures |r| <= |data|
    ensures forall x :: x in r <==> x in data && keep(x)
  {
    if data == [] then []
    else
      var rest := FilterBy(data[1..], keep);
      assert forall x :: x in data <==> x == data[0] || x in data[1..];
      if keep(data[0]) then [data[0]] + rest else rest
  }

  /** `filteredData`: the patients kept by search and status, in their original order. */
  function Filter(data: seq<Patient>, query: string, statusFilter: string): (r: seq<Patient>)
    ensures |r| <= |data|
    ensures forall x :: x in r <==> x in data && Keep(x, query, statusFilter)
  {
    FilterBy(data, p => Keep(p, query, statusFilter))
  }

  /** `a` is `b` with some elements left out, the rest in the same order. */
  ghost predicate IsSubsequence(a: seq<Patient>, b: seq<Patient>)
    decreases |b|
  {
    a == [] || (b != [] && ((a[0] == b[0] && IsSubsequence(a[1..], b[1..])) || IsSubsequence(a, b[1..])))
  }

  /** The filter keeps the original order. */
  lemma {:induction false} FilterIsSubsequence(data: seq<Patient>, keep: Patient -> bool)
    ensures IsSubsequence(FilterBy(data, keep), data)
    decreases |data|
  {
    if data != [] {
      FilterIsSubsequence(data[1..], keep);
      var rest := FilterBy(data[1..], keep);
      if keep(data[0]) {
        assert FilterBy(data, keep) == [data[0]] + rest;
        assert ([data[0]] + rest)[1..] == rest;
      }
    }
  }

  /** Filtering a concatenation filters each part: the filter looks at each patient alone. */
  lemma {:induction false} FilterDistributes(a: seq<Patient>, b: seq<Patient>, keep: Patient -> bool)
    ensures FilterBy(a + b, keep) == FilterBy(a, keep) + FilterBy(b, keep)
    decreases |a|
  {
    if a == [] {
      assert a + b == b;
    } else {
      assert (a + b)[0] == a[0];
      assert (a + b)[1..] == a[1..] + b;
      FilterDistributes(a[1..], b, keep);
    }
  }

  /** A filter that accepts every patient returns the data unchanged. */
  lemma {:induction false} FilterKeepsAllKept(data: seq<Patient>, keep: Patient -> bool)
    requires forall i :: 0 <= i < |data| ==> keep(data[i])
    ensures FilterBy(data, keep) == data
    decreases |data|
  {
    if data != [] {
      FilterKeepsAllKept(data[1..], keep);
      assert data == [data[0]] + data[1..];
    }
  }

  /** With an empty query and the `all` status, nothing is filtered out. */
  lemma FilterKeepsAllWhenUnfiltered(data: seq<Patient>)
    ensures Filter(data, "", AllStatuses) == data
  {
    var keep := p => Keep(p, "", AllStatuses);
    forall i | 0 <= i < |data|
      ensures keep(data[i])
    {
      EmptyQueryMatchesAll(data[i]);
    }
    FilterKeepsAllKept(data, keep);
  }

  /** Filtering an already filtered list changes nothing. */
  lemma {:induction false} FilterIdempotent(data: seq<Patient>, keep: Patient -> bool)
    ensures FilterBy(FilterBy(data, keep), keep) == FilterBy(data, keep)
    decreases |data|
  {
    if data != [] {
      FilterIdempotent(data[1..], keep);
      var rest := FilterBy(data[1..], keep);
      if keep(data[0]) {
        assert ([data[0]] + rest)[0] == data[0];
        assert ([data[0]] + rest)[1..] == rest;
      }
    }
  }

  /** `array.slice(start, start + len)` for non-negative bounds: at most `len` rows from `start`, clamped to the array. */
  function Window(s: seq<Patient>, start: nat, len: nat): (r: seq<Patient>)
    ensures |r| <= len
    ensures start >= |s| ==> r == []
    ensures start < |s| ==> |r| == if |s| - start < len then |s| - start else len
    ensures forall i :: 0 <= i < |r| ==> start + i < |s| && r[i] == s[start + i]
    ensures forall x :: x in r ==> x in s
  {
    if start >= |s| then []
    else if start + len < |s| then s[start..start + len]
    else s[start..]
  }

  /** Index of the first row of page `page`. */
  function PageStart(page: nat, rowsPerPage: nat): nat {
    page * rowsPerPage
  }

  /** `paginatedData`: the `page`-th run of `rowsPerPage` rows. */
  function Paginate(rows: seq<Patient>, page: nat, rowsPerPage: nat): (r: seq<Patient>)
    ensures |r| <= rowsPerPage
    ensures PageStart(page, rowsPerPage) >= |rows| ==> r == []
    ensures forall i :: 0 <= i < |r| ==> PageStart(page, rowsPerPage) + i < |rows| && r[i] == rows[PageStart(page, rowsPerPage) + i]
    ensures forall x :: x in r ==> x in rows
  {
    Window(rows, PageStart(page, rowsPerPage), rowsPerPage)
  }

  function Min(a: nat, b: nat): nat { if a < b then a else b }

  /** Page `m` is the slice between the clamped start of page `m` and of page `m + 1`. */
  lemma PageIsSlice(rows: seq<Patient>, m: nat, rowsPerPage: nat)
    ensures PageStart(m + 1, rowsPerPage) == PageStart(m, rowsPerPage) + rowsPerPage
    ensures Min(PageStart(m, rowsPerPage), |rows|) <= Min(PageStart(m + 1, rowsPerPage), |rows|)
    ensures Paginate(rows, m, rowsPerPage) == rows[Min(PageStart(m, rowsPerPage), |rows|)..Min(PageStart(m + 1, rowsPerPage), |rows|)]
  {
    assert (m + 1) * rowsPerPage == m * rowsPerPage + rowsPerPage;
  }

  /** Every row lands on exactly the page and position that division by the page size gives. */
  lemma EveryRowOnItsPage(rows: seq<Patient>, rowsPerPage: nat, i: nat)
    requires rowsPerPage > 0 && i < |rows|
    ensures var page := i / rowsPerPage;
            i % rowsPerPage < |Paginate(rows, page, rowsPerPage)|
            && Paginate(rows, page, rowsPerPage)[i % rowsPerPage] == rows[i]
  {
    var page := i / rowsPerPage;
    var k := i % rowsPerPage;
    assert PageStart(page, rowsPerPage) + k == i;
    var r := Paginate(rows, page, rowsPerPage);
    assert |r| == |Window(rows, PageStart(page, rowsPerPage), rowsPerPage)|;
  }

  /** The pages before `n`, one after another. */
  function PagesBefore(rows: seq<Patient>, rowsPerPage: nat, n: nat): seq<Patient> {
    if n == 0 then [] else PagesBefore(rows, rowsPerPage, n - 1) + Paginate(rows, n - 1, rowsPerPage)
  }

  /** Reading the pages in order gives the rows in order, with nothing lost or repeated. */
  lemma {:induction false} PagesConcatenate(rows: seq<Patient>, rowsPerPage: nat, n: nat)
    ensures PagesBefore(rows, rowsPerPage, n) == rows[..Min(PageStart(n, rowsPerPage), |rows|)]
  {
    if n > 0 {
      var m := n - 1;
      PagesConcatenate(rows, rowsPerPage, m);
      PageIsSlice(rows, m, rowsPerPage);
      var lo := Min(PageStart(m, rowsPerPage), |rows|);
      var hi := Min(PageStart(n, rowsPerPage), |rows|);
      assert rows[..lo] + rows[lo..hi] == rows[..hi];
    }
  }

  /** Page `m` is the run of at most `rowsPerPage` rows from its first index, clamped to the rows. */
  lemma PageIsRun(rows: seq<Patient>, m: nat, rowsPerPage: nat)
    ensures Min(PageStart(m, rowsPerPage), |rows|) <= Min(PageStart(m, rowsPerPage) + rowsPerPage, |rows|)
    ensures Paginate(rows, m, rowsPerPage) == rows[Min(PageStart(m, rowsPerPage), |rows|)..Min(PageStart(m, rowsPerPage) + rowsPerPage, |rows|)]
    ensures forall x :: x in Paginate(rows, m, rowsPerPage) ==> x in rows
  {
    PageIsSlice(rows, m, rowsPerPage);
  }

  /** The table's pagination state and its two handlers. */
  class Pagination {
    var page: nat
    var rowsPerPage: nat

    /** First page, ten rows. */
    constructor ()
      ensures page == 0 && rowsPerPage == 10
    {
      page := 0;
      rowsPerPage := 10;
    }

    /** `handleChangePage`: only the page changes. */
    method ChangePage(newPage: nat)
      modifies this
      ensures page == newPage && rowsPerPage == old(rowsPerPage)
    {
      page := newPage;
    }

    /** `handleChangeRowsPerPage`: the new size, back on the first page. */
    method ChangeRowsPerPage(value: nat)
      modifies this
      ensures rowsPerPage == value && page == 0
    {
      rowsPerPage := value;
      page := 0;
    }

    /** The rows on screen for the given data and filters. */
    function Visible(data: seq<Patient>, query: string, statusFilter: string): (r: seq<Patient>)
      reads this
      ensures |r| <= rowsPerPage
      ensures forall x :: x in r ==> x in data && Keep(x, query, statusFilter)
      ensures var f := Filter(data, query, statusFilter);
              r == f[Min(PageStart(page, rowsPerPage), |f|)..Min(PageStart(page, rowsPerPage) + rowsPerPage, |f|)]
    {
      var kept := Filter(data, query, statusFilter);
      PageIsRun(kept, page, rowsPerPage);
      Paginate(kept, page, rowsPerPage)
    }
  }

  /** A chip's background and text colours. */
  datatype ChipColors = ChipColors(bg: string, color: string)

  const ActiveColors := ChipColors("#DCFCE7", "#166534")
  const PendingColors := ChipColors("#FEF9C3", "#854D0E")
  const InactiveColors := ChipColors("#FEE2E2", "#991B1B")
  const DefaultColors := ChipColors("#F3F4F6", "#374151")

  /** `getStatusColor`: chosen by the lower-cased status. */
  function StatusColor(status: string): (c: ChipColors)
    ensures Lower(status) == "active" <==> c == ActiveColors
    ensures Lower(status) == "pending" <==> c == PendingColors
    ensures Lower(status) == "inactive" <==> c == InactiveColors
    ensures Lower(status) !in {"active", "pending", "inactive"} <==> c == DefaultColors
  {
    var s := Lower(status);
    if s == "active" then ActiveColors
    else if s == "pending" then PendingColors
    else if s == "inactive" then InactiveColors
    else DefaultColors
  }

  /** The chip colour does not depend on the case of the status. */
  lemma StatusColorIgnoresCase(status: string)
    ensures StatusColor(Upper(status)) == StatusColor(status)
  {
    LowerOfUpper(status);
  }

  /** The five avatar colours: the theme's primary and secondary, then three fixed ones. */
  datatype Swatch = PrimaryMain | SecondaryMain | Hex(code: string)

  const AvatarPalette: seq<Swatch> := [PrimaryMain, SecondaryMain, Hex("#10B981"), Hex("#F59E0B"), Hex("#8B5CF6")]

  /** `getAvatarColor`: primary for an empty name, else picked by the first UTF-16 code unit modulo five. */
  function AvatarColor(name: string): (c: Swatch)
    ensures name == "" ==> c == PrimaryMain
    ensures name != "" ==> 0 <= FirstCodeUnit(name) % |AvatarPalette| < 5 && c == AvatarPalette[FirstCodeUnit(name) % |AvatarPalette|]
    ensures c in AvatarPalette
  {
    if name == "" then PrimaryMain else AvatarPalette[FirstCodeUnit(name) % |AvatarPalette|]
  }

  /** The avatar letter: the upper-cased first character of the name, or `?` for an empty name. */
  function AvatarInitial(name: string): (r: string)
    ensures |r| == 1
    ensures name == "" ==> r == "?"
    ensures name != "" ==> r == [UpperChar(name[0])]
  {
    if name != "" then Upper(FirstChar(name)) else "?"
  }
}
