/** The system report helpers of api/core.py and api/sys_utils.py:
    `get_human_size`, which scales a byte count to the first unit under
    1024, and `compare_tools`, which compares the tools recorded at build
    time with those found at run time. */
module SysReport {

  // ---------------------------------------------------------------------
  // get_human_size
  // ---------------------------------------------------------------------

  /** The argument: text, passed through unchanged, or a number of bytes. */
  datatype SizeArg = Label(text: string) | Bytes(n: real)

  /** The result before `:.2f` formatting: the text given, or a value and
      its unit. */
  datatype Human = Passed(text: string) | Scaled(value: real, unit: string)

  const Units: seq<string> := ["B", "KB", "MB", "GB"]

  /** The unit after `k` divisions: the loop's units, then `TB`. */
  function UnitOf(k: nat): string {
    if k < |Units| then Units[k] else "TB"
  }

  /** `1024^k`. */
  function Power(k: nat): (p: real)
    ensures p >= 1.0
  {
    if k == 0 then 1.0 else 1024.0 * Power(k - 1)
  }

  /** `k` divisions are made: the value after each earlier one was still
      at least 1024, and the value after `k` is under 1024 or the units
      have run out. */
  predicate IsRank(n: real, k: nat) {
    && k <= |Units|
    && (k == |Units| || n < 1024.0 * Power(k))
    && (forall j: nat :: j < k ==> n >= 1024.0 * Power(j))
  }

  function RankFrom(n: real, k: nat): (r: nat)
    requires k <= |Units|
    requires forall j: nat :: j < k ==> n >= 1024.0 * Power(j)
    ensures IsRank(n, r)
    decreases |Units| - k
  {
    if k == |Units| || n < 1024.0 * Power(k) then k else RankFrom(n, k + 1)
  }

  /** The number of divisions `get_human_size` makes for `n` bytes. */
  function Rank(n: real): (k: nat)
    ensures IsRank(n, k)
  {
    RankFrom(n, 0)
  }

  /** At most one number of divisions fits. */
  lemma {:induction false} RankUnique(n: real, k1: nat, k2: nat)
    requires IsRank(n, k1) && IsRank(n, k2)
    ensures k1 == k2
  {
    assert k1 < k2 ==> n >= 1024.0 * Power(k1);
    assert k2 < k1 ==> n >= 1024.0 * Power(k2);
  }

  /** `get_human_size`: text passes through; a number is divided by 1024
      until it is under 1024, at most four times, and the value left is
      the number over `1024^k` with the `k`th unit. Below the last unit the
      value is under 1024, and after any division it is at least 1. */
  method HumanSize(size: SizeArg) returns (r: Human)
    ensures size.Label? ==> r == Passed(size.text)
    ensures size.Bytes? ==>
      && r.Scaled?
      && r.unit == UnitOf(Rank(size.n))
      && r.value == size.n / Power(Rank(size.n))
      && (r.unit != "TB" ==> r.value < 1024.0)
      && (r.unit != "B" ==> r.value >= 1.0)
  {
    if size.Label? {
      return Passed(size.text);
    }
    var value := size.n;
    var k := 0;
    while k < |Units|
      invariant 0 <= k <= |Units|
      invariant value == size.n / Power(k)
      invariant forall j: nat :: j < k ==> size.n >= 1024.0 * Power(j)
    {
      Scale(size.n, k);
      if value < 1024.0 {
        Settle(size.n, k);
        return Scaled(value, Units[k]);
      }
      value := value / 1024.0;
      k := k + 1;
    }
    Settle(size.n, k);
    r := Scaled(value, "TB");
  }

  /** One division: the value is under 1024 exactly when the number is
      under `1024^(k+1)`, and dividing again gives the number over
      `1024^(k+1)`. */
  lemma Scale(n: real, k: nat)
    ensures n / Power(k) < 1024.0 <==> n < 1024.0 * Power(k)
    ensures n / Power(k) / 1024.0 == n / Power(k + 1)
  {
    var p := Power(k);
    var v := n / p;
    assert v * p == n;
    assert v < 1024.0 <==> v * p < 1024.0 * p;
  }

  /** Where the loop stops is the rank, and a value after a division is
      at least 1. */
  lemma Settle(n: real, k: nat)
    requires IsRank(n, k)
    ensures Rank(n) == k
    ensures k > 0 ==> n / Power(k) >= 1.0
  {
    RankUnique(n, k, Rank(n));
    if k > 0 {
      assert n >= 1024.0 * Power(k - 1);
      AtLeastOne(n, Power(k));
    }
  }

  lemma AtLeastOne(n: real, q: real)
    requires q > 0.0 && n >= q
    ensures n / q >= 1.0
  {
    var v := n / q;
    assert v * q == n;
    assert (v - 1.0) * q == n - q;
  }

  // ---------------------------------------------------------------------
  // compare_tools
  // ---------------------------------------------------------------------

  /** Which copy: api/core.py says "Missing in Runtimes", api/sys_utils.py
      "Missing in Runtime". */
  datatype Copy = CoreCopy | SysUtilsCopy

  const SamePath := "\U{2705} Same Path"
  const PathChanged := "\U{26A0}\U{FE0F} Path Changed"
  const NewInRuntime := "\U{2728} New in Runtime"
  const NotAvailable := "\U{26D4} Not Available"

  function MissingInRuntime(copy: Copy): string {
    match copy
    case CoreCopy => "\U{274C} Missing in Runtimes"
    case SysUtilsCopy => "\U{274C} Missing in Runtime"
  }

  /** A path as Python tests it: the empty string (or a JSON null, written
      as the empty string) is false. */
  predicate Truthy(path: string) {
    path != ""
  }

  /** The status of one tool from its build path and its run-time path. */
  function Status(build: string, runtime: string, copy: Copy): string {
    if Truthy(build) && Truthy(runtime) then (if build == runtime then SamePath else PathChanged)
    else if Truthy(build) then MissingInRuntime(copy)
    else if Truthy(runtime) then NewInRuntime
    else NotAvailable
  }

  /** The five statuses are distinct, so the status tells which paths were
      found and whether they agree; the two copies differ only for a tool
      found at build time and not at run time. */
  lemma StatusDecides(build: string, runtime: string, copy: Copy)
    ensures Status(build, runtime, copy) == SamePath <==> Truthy(build) && build == runtime
    ensures Status(build, runtime, copy) == PathChanged <==> Truthy(build) && Truthy(runtime) && build != runtime
    ensures Status(build, runtime, copy) == MissingInRuntime(copy) <==> Truthy(build) && !Truthy(runtime)
    ensures Status(build, runtime, copy) == NewInRuntime <==> !Truthy(build) && Truthy(runtime)
    ensures Status(build, runtime, copy) == NotAvailable <==> !Truthy(build) && !Truthy(runtime)
    ensures Status(build, runtime, CoreCopy) != Status(build, runtime, SysUtilsCopy) <==>
      Truthy(build) && !Truthy(runtime)
  {
    assert SamePath[0] != PathChanged[0];
    assert "\U{274C} Missing in Runtimes" != "\U{274C} Missing in Runtime" by {
      assert |"\U{274C} Missing in Runtimes"| != |"\U{274C} Missing in Runtime"|;
    }
  }

  /** One row of the table: `{"name", "build", "runtime", "status"}`. */
  datatype ToolRow = ToolRow(name: string, build: string, runtime: string, status: string)

  const DefaultTools: seq<string> := ["tree", "jq", "curl", "git", "python3"]

  /** `build_data.get(tool)`: the recorded path, or nothing. */
  function Lookup(m: map<string, string>, key: string): string {
    if key in m then m[key] else ""
  }

  /** `x or "-"`. */
  function OrDash(path: string): string {
    if Truthy(path) then path else "-"
  }

  /** The row for one tool; `which` holds the tools found on the run-time
      `PATH`. */
  function RowFor(tool: string, build: map<string, string>, which: map<string, string>, copy: Copy): (row: ToolRow)
    ensures row.name == tool
    ensures row.build == "-" <==> !Truthy(Lookup(build, tool)) || Lookup(build, tool) == "-"
    ensures row.status == Status(Lookup(build, tool), Lookup(which, tool), copy)
  {
    var b := Lookup(build, tool);
    var r := Lookup(which, tool);
    ToolRow(tool, OrDash(b), OrDash(r), Status(b, r, copy))
  }

  /** The tools compared: the recorded ones in the order the record lists
      them, or the default five when nothing was recorded. */
  function ToolList(order: seq<string>, build: map<string, string>): (tools: seq<string>)
    ensures build == map[] ==> tools == DefaultTools
    ensures build != map[] ==> tools == order
  {
    if build != map[] then order else DefaultTools
  }

  /** `compare_tools`. `order` is the order of the recorded tools (the
      keys of the JSON object); an unreadable or missing record is empty. */
  method CompareTools(order: seq<string>, build: map<string, string>, which: map<string, string>, copy: Copy)
    returns (comparison: seq<ToolRow>)
    requires build != map[] ==> (forall t :: t in order <==> t in build)
    ensures |comparison| == |ToolList(order, build)|
    ensures forall k :: 0 <= k < |comparison| ==>
      comparison[k] == RowFor(ToolList(order, build)[k], build, which, copy)
    ensures build != map[] ==> forall k :: 0 <= k < |comparison| ==> comparison[k].name in build
  {
    var tools := if build != map[] then order else DefaultTools;
    comparison := Rows(tools, build, which, copy);
    if build != map[] {
      forall k | 0 <= k < |comparison| ensures comparison[k].name in build {
        assert comparison[k].name == order[k];
        assert order[k] in order;
      }
    }
  }

  /** The loop of `compare_tools`: one row per tool, in order. */
  method Rows(tools: seq<string>, build: map<string, string>, which: map<string, string>, copy: Copy)
    returns (comparison: seq<ToolRow>)
    ensures |comparison| == |tools|
    ensures forall k :: 0 <= k < |tools| ==> comparison[k] == RowFor(tools[k], build, which, copy)
  {
    comparison := [];
    var i := 0;
    while i < |tools|
      invariant 0 <= i <= |tools|
      invariant |comparison| == i
      invariant forall k :: 0 <= k < i ==> comparison[k] == RowFor(tools[k], build, which, copy)
    {
      var row := RowOf(tools[i], build, which, copy);
      comparison := comparison + [row];
      i := i + 1;
    }
  }

  /** One pass of the loop: the two paths looked up, the status chosen,
      and a missing path shown as `-`. */
  method RowOf(tool: string, build: map<string, string>, which: map<string, string>, copy: Copy)
    returns (row: ToolRow)
    ensures row == RowFor(tool, build, which, copy)
  {
    var buildPath := if tool in build then build[tool] else "";
    var runtimePath := if tool in which then which[tool] else "";
    var status := "Unknown";
    if Truthy(buildPath) && Truthy(runtimePath) {
      status := if buildPath == runtimePath then SamePath else PathChanged;
    } else if Truthy(buildPath) && !Truthy(runtimePath) {
      status := MissingInRuntime(copy);
    } else if !Truthy(buildPath) && Truthy(runtimePath) {
      status := NewInRuntime;
    } else {
      status := NotAvailable;
    }
    row := ToolRow(tool, if Truthy(buildPath) then buildPath else "-",
                   if Truthy(runtimePath) then runtimePath else "-", status);
  }
}
