/** The statistics filter page: five filters, a submit that either clears the
    results locally or fetches completed appointments with a chart series,
    and the chart area that shows a placeholder or an area chart whose y axis
    is derived from the series. */
module Filter {
  import opened Js
  import opened Http

  datatype Filters = Filters(hospital: string, department: string, doctor: string, fromDate: string, toDate: string)

  const NoFilters: Filters := Filters("", "", "", "", "")

  /** The five named controls of the filter form. */
  datatype FilterField = HospitalFilter | DepartmentFilter | DoctorFilter | FromDateFilter | ToDateFilter

  /** The `name` attribute of each control, which `handleFilterChange` uses
      as the key it overwrites. */
  function InputName(f: FilterField): string {
    match f
    case HospitalFilter => "hospital"
    case DepartmentFilter => "department"
    case DoctorFilter => "doctor"
    case FromDateFilter => "fromDate"
    case ToDateFilter => "toDate"
  }

  function FilterValue(fs: Filters, f: FilterField): string {
    match f
    case HospitalFilter => fs.hospital
    case DepartmentFilter => fs.department
    case DoctorFilter => fs.doctor
    case FromDateFilter => fs.fromDate
    case ToDateFilter => fs.toDate
  }

  /** The chart series the server returns with the appointments. */
  datatype ChartData = ChartData(totalPatients: int, categories: seq<string>, data: seq<int>)

  const EmptyChart: ChartData := ChartData(0, [], [])

  datatype State = State(
    hospitals: seq<Obj>, departments: seq<Obj>, doctors: seq<Obj>,
    filters: Filters,
    appointments: seq<Obj>,
    chartData: ChartData,
    loading: bool,
    chartLive: bool)   // chartRef.current holds a chart instance

  const Init: State := State([], [], [], NoFilters, [], EmptyChart, false, false)

  const HospitalsUrl: string := Api + "/api/hospitals/"
  const DepartmentsUrl: string := Api + "/api/departments/"
  const DoctorsUrl: string := Api + "/api/doctors/"
  const AppointmentsUrl: string := Api + "/api/completed-appointments/"

  /** On mount the three selector lists are fetched together. */
  function Mount(st: State): (r: Step<State>)
    ensures r.state == st
    ensures |r.effects| == 3 && forall e | e in r.effects :: e.Request? && e.verb == GET
  {
    Step(st, [Request(GET, HospitalsUrl, None, []), Request(GET, DepartmentsUrl, None, []), Request(GET, DoctorsUrl, None, [])])
  }

  datatype Options = Options(hospitals: seq<Obj>, departments: seq<Obj>, doctors: seq<Obj>)

  /** `Promise.all` over the three lists: either all three are stored or,
      when any of them fails, none is. */
  function OnOptions(st: State, reply: Reply<Options>): (r: State)
    ensures reply.Failed? ==> r == st
    ensures reply.Ok? ==>
      r.hospitals == reply.value.hospitals && r.departments == reply.value.departments && r.doctors == reply.value.doctors
    ensures r.(hospitals := st.hospitals, departments := st.departments, doctors := st.doctors) == st
  {
    match reply
    case Ok(o) => st.(hospitals := o.hospitals, departments := o.departments, doctors := o.doctors)
    case Failed(_) => st
  }

  /** `handleFilterChange`: `{...filters, [name]: value}`. */
  function ChangeFilter(st: State, f: FilterField, value: string): (r: State)
    ensures FilterValue(r.filters, f) == value
    ensures forall g :: g != f ==> FilterValue(r.filters, g) == FilterValue(st.filters, g)
    ensures r.(filters := st.filters) == st
  {
    var fs := st.filters;
    var fs' := match f
      case HospitalFilter => fs.(hospital := value)
      case DepartmentFilter => fs.(department := value)
      case DoctorFilter => fs.(doctor := value)
      case FromDateFilter => fs.(fromDate := value)
      case ToDateFilter => fs.(toDate := value);
    st.(filters := fs')
  }

  /** Two filter states that agree on every control are the same. */
  lemma FiltersExtensional(a: Filters, b: Filters)
    requires forall f :: FilterValue(a, f) == FilterValue(b, f)
    ensures a == b
  {
    assert FilterValue(a, HospitalFilter) == FilterValue(b, HospitalFilter);
    assert FilterValue(a, DepartmentFilter) == FilterValue(b, DepartmentFilter);
    assert FilterValue(a, DoctorFilter) == FilterValue(b, DoctorFilter);
    assert FilterValue(a, FromDateFilter) == FilterValue(b, FromDateFilter);
    assert FilterValue(a, ToDateFilter) == FilterValue(b, ToDateFilter);
  }

  /** Changing a control to the value it already has changes nothing, and a
      later change of the same control overrides an earlier one. */
  lemma ChangeFilterIdempotent(st: State, f: FilterField, v: string, w: string)
    ensures ChangeFilter(st, f, FilterValue(st.filters, f)) == st
    ensures ChangeFilter(ChangeFilter(st, f, v), f, w) == ChangeFilter(st, f, w)
  {
    FiltersExtensional(ChangeFilter(st, f, FilterValue(st.filters, f)).filters, st.filters);
    FiltersExtensional(ChangeFilter(ChangeFilter(st, f, v), f, w).filters, ChangeFilter(st, f, w).filters);
  }

  /** `!filters.hospital && !filters.department && ... && !filters.toDate` */
  predicate AllEmpty(fs: Filters) {
    fs.hospital == "" && fs.department == "" && fs.doctor == "" && fs.fromDate == "" && fs.toDate == ""
  }

  /** The query parameters: the three selectors under their own names, the
      dates renamed to `start_date` and `end_date`. */
  function Params(fs: Filters): Obj {
    [ ("hospital", Str(fs.hospital)),
      ("department", Str(fs.department)),
      ("doctor", Str(fs.doctor)),
      ("start_date", Str(fs.fromDate)),
      ("end_date", Str(fs.toDate)) ]
  }

  /** Every filter reaches the query, under the parameter name the server
      expects. */
  lemma ParamsCarryFilters(fs: Filters)
    ensures Lookup(Params(fs), "hospital") == Some(Str(fs.hospital))
    ensures Lookup(Params(fs), "department") == Some(Str(fs.department))
    ensures Lookup(Params(fs), "doctor") == Some(Str(fs.doctor))
    ensures Lookup(Params(fs), "start_date") == Some(Str(fs.fromDate))
    ensures Lookup(Params(fs), "end_date") == Some(Str(fs.toDate))
    ensures Lookup(Params(fs), "fromDate") == None && Lookup(Params(fs), "toDate") == None
  {
    var p := Params(fs);
    LookupAt(p, 0, "hospital");
    LookupAt(p, 1, "department");
    LookupAt(p, 2, "doctor");
    LookupAt(p, 3, "start_date");
    LookupAt(p, 4, "end_date");
    LookupMissing(p, "fromDate");
    LookupMissing(p, "toDate");
  }

  /** `handleSubmit`: with every filter empty the results are cleared and
      nothing is fetched; otherwise `fetchAppointments` starts loading,
      clears the previous results and issues one GET. The submit button is
      disabled while loading. */
  function Submit(st: State): (r: Step<State>)
    requires !st.loading
    ensures AllEmpty(st.filters) ==> r.effects == [] && !r.state.loading
    ensures !AllEmpty(st.filters) ==>
      r.effects == [Request(GET, AppointmentsUrl, None, Params(st.filters))] && r.state.loading
    ensures r.state.appointments == [] && r.state.chartData == EmptyChart
    ensures r.state.(appointments := st.appointments, chartData := st.chartData, loading := st.loading) == st
  {
    var cleared := st.(appointments := [], chartData := EmptyChart);
    if AllEmpty(st.filters) then
      Step(cleared, [])
    else
      Step(cleared.(loading := true), [Request(GET, AppointmentsUrl, None, Params(st.filters))])
  }

  /** The reply's `appointments` and `chart_data`. */
  datatype Results = Results(appointments: seq<Obj>, chartData: ChartData)

  /** The end of `fetchAppointments`: success stores the reply, failure
      stores the empty results, and `finally` clears `loading`. */
  function OnAppointments(st: State, reply: Reply<Results>): (r: State)
    ensures !r.loading
    ensures reply.Ok? ==> r.appointments == reply.value.appointments && r.chartData == reply.value.chartData
    ensures reply.Failed? ==> r.appointments == [] && r.chartData == EmptyChart
    ensures r.(appointments := st.appointments, chartData := st.chartData, loading := st.loading) == st
  {
    match reply
    case Ok(res) => st.(appointments := res.appointments, chartData := res.chartData, loading := false)
    case Failed(_) => st.(appointments := [], chartData := EmptyChart, loading := false)
  }

  /** A failed fetch leaves exactly the state an empty successful reply
      would: the page has no separate error state. */
  lemma FailureLooksEmpty(st: State, response: Option<Response>)
    ensures OnAppointments(st, Failed(response)) == OnAppointments(st, Ok(Results([], EmptyChart)))
  {
  }

  // ---------------------------------------------------------------------------
  // Chart area

  /** `Math.max(...s)` on a non-empty series. */
  function SeqMax(s: seq<int>): (m: int)
    requires |s| > 0
    ensures m in s
    ensures forall x :: x in s ==> x <= m
    decreases |s|
  {
    if |s| == 1 then s[0]
    else
      var rest := SeqMax(s[1..]);
      assert forall x :: x in s ==> x == s[0] || x in s[1..];
      if s[0] >= rest then s[0] else rest
  }

  datatype ChartView =
    | LoadingPlaceholder
    | NoDataPlaceholder
    | AreaChart(yMax: int, tickAmount: int, categories: seq<string>, data: seq<int>)

  /** The chart area after `renderChart`, whether a previous chart instance
      was destroyed first, and the page state with the new chart reference. */
  datatype Rendered = Rendered(state: State, destroyedPrevious: bool, view: ChartView)

  /** `renderChart`: destroy any previous instance, then show the loading
      placeholder, the no-data placeholder, or a new chart whose y axis runs
      to one above the series maximum with one tick per unit. */
  function RenderChart(st: State): (r: Rendered)
    ensures r.destroyedPrevious == st.chartLive
    ensures r.state.chartLive <==> r.view.AreaChart?
    ensures r.state.(chartLive := st.chartLive) == st
    ensures st.loading ==> r.view == LoadingPlaceholder
    ensures !st.loading && st.chartData.data == [] ==> r.view == NoDataPlaceholder
    ensures r.view.AreaChart? <==> !st.loading && st.chartData.data != []
    ensures r.view.AreaChart? ==>
      && r.view.data == st.chartData.data && r.view.categories == st.chartData.categories
      && r.view.yMax == r.view.tickAmount + 1
      && r.view.tickAmount in r.view.data
      && forall x :: x in r.view.data ==> x <= r.view.tickAmount < r.view.yMax
  {
    if st.loading then Rendered(st.(chartLive := false), st.chartLive, LoadingPlaceholder)
    else if |st.chartData.data| == 0 then Rendered(st.(chartLive := false), st.chartLive, NoDataPlaceholder)
    else
      var top := SeqMax(st.chartData.data);
      Rendered(st.(chartLive := true), st.chartLive,
        AreaChart(top + 1, top, st.chartData.categories, st.chartData.data))
  }

  /** Rendering twice in a row leaves one live chart: the second render
      destroys the instance the first one created. */
  lemma ChartsDoNotAccumulate(st: State)
    ensures var once := RenderChart(st);
      RenderChart(once.state).destroyedPrevious == once.view.AreaChart?
  {
  }

  datatype TableBody = LoadingRow | Rows(rows: seq<Obj>) | NoAppointmentsRow

  /** The appointments table: a loading row, one row per appointment in
      server order, or the empty-state row. */
  function Table(st: State): (t: TableBody)
    ensures st.loading <==> t == LoadingRow
    ensures t.Rows? ==> t.rows == st.appointments && |t.rows| > 0
    ensures !st.loading && st.appointments == [] ==> t == NoAppointmentsRow
  {
    if st.loading then LoadingRow
    else if |st.appointments| > 0 then Rows(st.appointments)
    else NoAppointmentsRow
  }

  /** The headline number: `...` while loading, the reply's total otherwise. */
  function TotalText(st: State): string {
    if st.loading then "..." else IntToString(st.chartData.totalPatients)
  }

  /** A submit with at least one filter set shows the loading placeholders
      until the reply arrives; a failed reply then shows the no-data
      placeholder and the empty-state row, and destroys no chart. */
  lemma SubmitThenFail(st: State, response: Option<Response>)
    requires !st.loading && !AllEmpty(st.filters)
    ensures var s1 := RenderChart(Submit(st).state);
      && s1.view == LoadingPlaceholder && Table(s1.state) == LoadingRow && TotalText(s1.state) == "..."
      && var s2 := RenderChart(OnAppointments(s1.state, Failed(response)));
      && s2.view == NoDataPlaceholder && !s2.destroyedPrevious
      && Table(s2.state) == NoAppointmentsRow && TotalText(s2.state) == "0"
  {
  }

  /** A submit with every filter empty leaves the empty placeholders and
      keeps the filters, with no request. */
  lemma SubmitAllEmpty(st: State)
    requires !st.loading && AllEmpty(st.filters)
    ensures var r := Submit(st);
      && NoRequest(r.effects) && r.state.filters == NoFilters
      && RenderChart(r.state).view == NoDataPlaceholder && Table(r.state) == NoAppointmentsRow
  {
  }
}
