/** The agent's inventory report (collector.py:15-126). Every call into the
    operating system, psutil, wmic or the network is an input here: a
    `Probe` holds either the value the call returned or the traceback of
    the exception it raised. Only the external address lookup, the GPU
    query and the per-partition usage lookup are guarded where they are
    made; any other exception abandons the report for a failure text. */
module Report {
  import opened Text
  import opened Json
  import opened Namer

  /** What an unguarded call produced. */
  datatype Probe<+T> = Got(value: T) | Raised(trace: string)

  /** The answer of the address lookup service, once parsed. */
  datatype IpBody =
    | JsonObject(fields: map<string, Value>)
      /** `response.json()` raised, or gave something without `.get`: the
          class name of the exception. */
    | Unreadable(exception: string)

  datatype IpLookup =
    | Answered(status: nat, body: IpBody)
      /** `requests.get` raised: the class name of the exception. */
    | RequestFailed(exception: string)

  /** The GPU query: its standard output, or any failure to run it. */
  datatype GpuQuery = GpuOutput(text: string) | GpuFailed

  /** A partition's usage lookup. Sizes and percentages arrive already
      formatted, as text. */
  datatype Usage =
    | Measured(total: string, used: string, percent: string)
    | PermissionDenied
    | PathNotFound
    | UsageFailed(trace: string)

  datatype Partition = Partition(device: string, fstype: string, usage: Usage)

  datatype Family = Inet | Link | OtherFamily

  datatype Address = Address(family: Family, address: string)

  datatype Interface = Interface(name: string, addresses: seq<Address>)

  /** Memory figures, already formatted as text. */
  datatype Memory = Memory(total: string, used: string, percent: string, available: string)

  /** Everything the report is built from, in the order it is consulted. */
  datatype Sources = Sources(
    lookup: IpLookup,
    user: Probe<string>,
    host: Probe<string>,
    platform: Probe<string>,
    clock: Timestamp,
    uptime: Probe<string>,
    cpuModel: Probe<string>,
    physicalCores: Probe<string>,
    logicalCores: Probe<string>,
    memory: Probe<Memory>,
    gpu: GpuQuery,
    partitions: Probe<seq<Partition>>,
    interfaces: Probe<seq<Interface>>)

  // ------------------------------------------------------------ the texts

  const IpHeading := "--- ВНЕШНИЙ IP-АДРЕС ---"
  const LookupError := "Сервис ipinfo.io вернул ошибку: "
  const NoInformation := "Не удалось получить информацию: "
  const SystemHeading := "\n--- СИСТЕМНАЯ ИНФОРМАЦИЯ ---"
  const CpuHeading := "\n--- ПРОЦЕССОР ---"
  const MemoryHeading := "\n--- ОПЕРАТИВНАЯ ПАМЯТЬ (ОЗУ) ---"
  const GpuHeading := "\n--- ВИДЕОКАРТА (GPU) ---"
  const GpuUnknown := "\n--- ВИДЕОКАРТА (GPU) ---\nНе удалось определить видеокарту."
  const DiskHeading := "\n--- ДИСКОВЫЕ НАКОПИТЕЛИ ---"
  const InterfacesHeading := "\n--- ЛОКАЛЬНЫЕ СЕТЕВЫЕ ИНТЕРФЕЙСЫ ---"
  const InterfacePrefix := "Интерфейс: "
  const CrashPrefix := "Произошла ошибка при сборе информации:\n"

  /** The fields of the lookup answer that are reported, with their labels,
      in report order. */
  const KeyMap: seq<(string, string)> := [
    ("ip", "IP-адрес"),
    ("hostname", "Хостнейм"),
    ("city", "Город"),
    ("region", "Регион"),
    ("country", "Страна"),
    ("loc", "Координаты"),
    ("org", "Провайдер"),
    ("timezone", "Часовой пояс")]

  // ---------------------------------------------------- address lookup

  predicate Present(fields: map<string, Value>, key: string) {
    key in fields && Truthy(fields[key])
  }

  /** The line a key would contribute; an absent key would show nothing. */
  function FieldLine(fields: map<string, Value>, entry: (string, string)): string {
    entry.1 + ": " + (if entry.0 in fields then Shown(fields[entry.0]) else "")
  }

  /** One "label: value" line per key whose value is present and truthy. */
  function KeyLines(fields: map<string, Value>, keys: seq<(string, string)>): (r: seq<string>)
    ensures |r| <= |keys|
  {
    if keys == [] then []
    else
      var first := if Present(fields, keys[0].0) then [FieldLine(fields, keys[0])] else [];
      first + KeyLines(fields, keys[1..])
  }

  /** The lines under the address heading (collector.py:25-48). */
  function IpLines(lookup: IpLookup): (r: seq<string>)
    ensures |r| <= |KeyMap|
    ensures !(lookup.Answered? && lookup.status == 200 && lookup.body.JsonObject?) ==> |r| == 1
  {
    match lookup
    case Answered(status, body) =>
      if status == 200 then
        match body
        case JsonObject(fields) => KeyLines(fields, KeyMap)
        case Unreadable(e) => [NoInformation + e]
      else [LookupError + Decimal(status)]
    case RequestFailed(e) => [NoInformation + e]
  }

  /** On a successful answer the lines are the per-key lines in key order,
      a key's line appears exactly when its value is present and truthy,
      and nothing else appears. */
  lemma {:induction false} KeyLinesSelect(fields: map<string, Value>, keys: seq<(string, string)>)
    ensures IsSubseq(KeyLines(fields, keys), seq(|keys|, j requires 0 <= j < |keys| => FieldLine(fields, keys[j])))
    ensures forall j :: 0 <= j < |keys| && Present(fields, keys[j].0) ==> FieldLine(fields, keys[j]) in KeyLines(fields, keys)
    ensures forall line :: line in KeyLines(fields, keys) ==>
      exists j :: 0 <= j < |keys| && Present(fields, keys[j].0) && line == FieldLine(fields, keys[j])
  {
    if keys != [] {
      KeyLinesSelect(fields, keys[1..]);
      var all := seq(|keys|, j requires 0 <= j < |keys| => FieldLine(fields, keys[j]));
      var rest := seq(|keys| - 1, j requires 0 <= j < |keys| - 1 => FieldLine(fields, keys[1..][j]));
      assert all[1..] == rest;
      var r := KeyLines(fields, keys);
      var tail := KeyLines(fields, keys[1..]);
      if Present(fields, keys[0].0) {
        assert r[1..] == tail;
      } else {
        assert r == tail;
        IsSubseqDropHead(r, all);
      }
      forall line | line in r
        ensures exists j :: 0 <= j < |keys| && Present(fields, keys[j].0) && line == FieldLine(fields, keys[j])
      {
        if line in tail {
          var j :| 0 <= j < |keys| - 1 && Present(fields, keys[1..][j].0) && line == FieldLine(fields, keys[1..][j]);
          assert keys[1..][j] == keys[j + 1];
        }
      }
    }
  }

  /** The labels start with different letters, so the per-key lines of
      two different keys never coincide. */
  lemma KeyMapLabelsDistinct()
    ensures forall i, j :: 0 <= i < j < |KeyMap| ==> KeyMap[i].1[0] != KeyMap[j].1[0]
    ensures forall i, j :: 0 <= i < j < |KeyMap| ==> KeyMap[i].0 != KeyMap[j].0
  {
  }

  /** Any answer other than 200 gives exactly one line, from which the
      status code can be read back. */
  lemma StatusLine(status: nat, body: IpBody)
    requires status != 200
    ensures var r := IpLines(Answered(status, body));
      && |r| == 1 && r[0][..|LookupError|] == LookupError
      && (forall k :: |LookupError| <= k < |r[0]| ==> IsDigit(r[0][k]))
      && DecimalValue(r[0][|LookupError|..]) == status
  {
    var r := IpLines(Answered(status, body));
    assert r[0][|LookupError|..] == Decimal(status);
    DecimalRoundTrip(status);
  }

  /** A failed request, and a 200 answer whose body could not be read as
      an object, give exactly one line, ending in the exception's class
      name. */
  lemma RequestFailedLine(e: string)
    ensures var r := IpLines(RequestFailed(e));
      |r| == 1 && r[0][..|NoInformation|] == NoInformation && r[0][|NoInformation|..] == e
    ensures var r := IpLines(Answered(200, Unreadable(e)));
      |r| == 1 && r[0][..|NoInformation|] == NoInformation && r[0][|NoInformation|..] == e
  {
  }

  // ---------------------------------------------------------------- GPU

  predicate KeptGpuName(name: string) {
    name != "" && name != "Name"
  }

  /** Every line stripped. */
  function StripAll(lines: seq<string>): (r: seq<string>)
    ensures |r| == |lines|
  {
    if lines == [] then [] else [Strip(lines[0])] + StripAll(lines[1..])
  }

  /** The GPU names in the query output: each line stripped, blank lines
      and the "Name" column header dropped (collector.py:90-94). */
  function GpuNames(lines: seq<string>): (r: seq<string>)
    ensures |r| <= |lines|
  {
    if lines == [] then []
    else (if KeptGpuName(Strip(lines[0])) then [Strip(lines[0])] else []) + GpuNames(lines[1..])
  }

  /** Every name is stripped and is neither blank nor the header. */
  lemma {:induction false} GpuNamesAreNames(lines: seq<string>)
    ensures forall i :: 0 <= i < |GpuNames(lines)| ==>
      KeptGpuName(GpuNames(lines)[i]) && Strip(GpuNames(lines)[i]) == GpuNames(lines)[i]
  {
    if lines != [] {
      GpuNamesAreNames(lines[1..]);
      var head, tail := Strip(lines[0]), GpuNames(lines[1..]);
      var r := GpuNames(lines);
      if KeptGpuName(head) {
        StripIdempotent(lines[0]);
        assert r == [head] + tail;
        forall i | 0 <= i < |r|
          ensures KeptGpuName(r[i]) && Strip(r[i]) == r[i]
        {
          if i > 0 {
            assert r[i] == tail[i - 1];
          }
        }
      } else {
        assert r == tail;
      }
    }
  }

  /** The names keep the order of the output. */
  lemma {:induction false} GpuNamesInOrder(lines: seq<string>)
    ensures IsSubseq(GpuNames(lines), StripAll(lines))
  {
    if lines != [] {
      GpuNamesInOrder(lines[1..]);
      var r := GpuNames(lines);
      var all := StripAll(lines);
      assert all[1..] == StripAll(lines[1..]);
      if KeptGpuName(Strip(lines[0])) {
        assert r[1..] == GpuNames(lines[1..]);
      } else {
        assert r == GpuNames(lines[1..]);
        IsSubseqDropHead(r, all);
      }
    }
  }

  /** Each stripped line that is a name occurs among the names exactly as
      often as in the output, and nothing else occurs. */
  lemma {:induction false} GpuNamesCount(lines: seq<string>, x: string)
    ensures multiset(GpuNames(lines))[x] == if KeptGpuName(x) then multiset(StripAll(lines))[x] else 0
  {
    if lines == [] {
      assert multiset(GpuNames(lines)) == multiset{};
    } else {
      GpuNamesCount(lines[1..], x);
      var head := Strip(lines[0]);
      var all := StripAll(lines);
      assert all == [head] + StripAll(lines[1..]);
      assert multiset(all) == multiset{head} + multiset(StripAll(lines[1..]));
      var r := GpuNames(lines);
      var keep := if KeptGpuName(head) then [head] else [];
      assert r == keep + GpuNames(lines[1..]);
      assert multiset(r) == multiset(keep) + multiset(GpuNames(lines[1..]));
    }
  }

  /** The GPU part of the report (collector.py:83-101). */
  function GpuLines(query: GpuQuery): (r: seq<string>)
    ensures query.GpuFailed? <==> |r| == 1
    ensures query.GpuOutput? && r != [] ==> r[0] == GpuHeading
  {
    match query
    case GpuFailed => [GpuUnknown]
    case GpuOutput(text) =>
      var names := GpuNames(SplitLines(text));
      if names == [] then [] else [GpuHeading] + names
  }

  /** The heading is written exactly when some GPU name was found, and then
      the names follow it; a failed query leaves only the placeholder. */
  lemma GpuLinesShape(query: GpuQuery)
    ensures query.GpuFailed? ==> GpuLines(query) == [GpuUnknown]
    ensures query.GpuOutput? ==>
      var names := GpuNames(SplitLines(query.text));
      && (GpuHeading in GpuLines(query) <==> names != [])
      && (names != [] ==> GpuLines(query)[1..] == names)
  {
    if query.GpuOutput? {
      var names := GpuNames(SplitLines(query.text));
      GpuNamesAreNames(SplitLines(query.text));
      assert GpuHeading !in names by {
        StripIsCore(GpuHeading);
        assert IsSpace(GpuHeading[0]);
      }
    }
  }

  // -------------------------------------------------------------- disks

  /** The line of a measured partition: it names the device first. */
  function DiskLine(p: Partition): (r: string)
    requires p.usage.Measured?
    ensures |r| > 5 + |p.device| && r[..5 + |p.device|] == "Диск " + p.device
  {
    "Диск " + p.device + " (" + p.fstype + ") - Всего: " + p.usage.total + " ГБ, "
      + "Занято: " + p.usage.used + " ГБ (" + p.usage.percent + "%)"
  }

  /** `lines` in front of whatever `rest` produced, or its failure. */
  function Glue(lines: seq<string>, rest: Probe<seq<string>>): Probe<seq<string>> {
    match rest
    case Got(more) => Got(lines + more)
    case Raised(t) => rest
  }

  /** Gluing twice is gluing the concatenation once. */
  lemma GlueGlue(a: seq<string>, b: seq<string>, rest: Probe<seq<string>>)
    ensures Glue(a, Glue(b, rest)) == Glue(a + b, rest)
  {
    if rest.Got? {
      assert a + (b + rest.value) == a + b + rest.value;
    }
  }

  /** One line per measured partition, in enumeration order; partitions
      denied or not found are passed over; any other failure aborts with
      its traceback (collector.py:104-112). */
  function DiskLines(parts: seq<Partition>): (r: Probe<seq<string>>)
    ensures r.Got? ==> |r.value| <= |parts|
  {
    if parts == [] then Got([])
    else match parts[0].usage
      case Measured(_, _, _) => Glue([DiskLine(parts[0])], DiskLines(parts[1..]))
      case UsageFailed(t) => Raised(t)
      case _ => DiskLines(parts[1..])
  }

  /** A partition whose usage lookup was denied or not found leaves no
      trace: the disk lines are those of the other partitions. */
  lemma {:induction false} SkippedPartitionInvisible(before: seq<Partition>, p: Partition, after: seq<Partition>)
    requires p.usage.PermissionDenied? || p.usage.PathNotFound?
    ensures DiskLines(before + [p] + after) == DiskLines(before + after)
  {
    if before == [] {
      assert before + [p] + after == [p] + after;
      assert before + after == after;
      assert ([p] + after)[0] == p && ([p] + after)[1..] == after;
    } else {
      assert (before + [p] + after)[1..] == before[1..] + [p] + after;
      assert (before + after)[1..] == before[1..] + after;
      SkippedPartitionInvisible(before[1..], p, after);
    }
  }

  /** A measured partition gives its line in its place: after the lines
      of the partitions enumerated before it, before those after it. */
  lemma {:induction false} DiskLinesMeasured(before: seq<Partition>, p: Partition, after: seq<Partition>)
    requires p.usage.Measured? && DiskLines(before).Got?
    ensures DiskLines(before + [p] + after) == Glue(DiskLines(before).value + [DiskLine(p)], DiskLines(after))
  {
    if before == [] {
      assert before + [p] + after == [p] + after;
      assert ([p] + after)[0] == p && ([p] + after)[1..] == after;
      assert DiskLines(before).value + [DiskLine(p)] == [DiskLine(p)];
    } else {
      assert (before + [p] + after)[1..] == before[1..] + [p] + after;
      DiskLinesMeasured(before[1..], p, after);
      if before[0].usage.Measured? {
        var head := [DiskLine(before[0])];
        var mid := DiskLines(before[1..]).value + [DiskLine(p)];
        GlueGlue(head, mid, DiskLines(after));
        assert head + mid == DiskLines(before).value + [DiskLine(p)];
      }
    }
  }

  /** The disk enumeration fails exactly when some partition's usage
      lookup failed other than by denial or absence, and then with the
      traceback of the first such partition. */
  lemma {:induction false} DiskLinesFail(parts: seq<Partition>)
    ensures DiskLines(parts).Raised? <==> exists j :: 0 <= j < |parts| && parts[j].usage.UsageFailed?
    ensures DiskLines(parts).Raised? ==>
      exists j :: 0 <= j < |parts| && parts[j].usage.UsageFailed?
        && DiskLines(parts).trace == parts[j].usage.trace
        && forall k :: 0 <= k < j ==> !parts[k].usage.UsageFailed?
  {
    if parts != [] {
      DiskLinesFail(parts[1..]);
      if !parts[0].usage.UsageFailed? {
        if DiskLines(parts).Raised? {
          var j :| 0 <= j < |parts[1..]| && parts[1..][j].usage.UsageFailed?
            && DiskLines(parts[1..]).trace == parts[1..][j].usage.trace
            && forall k :: 0 <= k < j ==> !parts[1..][k].usage.UsageFailed?;
          assert parts[j + 1] == parts[1..][j];
          assert forall k :: 1 <= k < j + 1 ==> parts[k] == parts[1..][k - 1];
        }
        if exists j :: 0 <= j < |parts| && parts[j].usage.UsageFailed? {
          var j :| 0 <= j < |parts| && parts[j].usage.UsageFailed?;
          assert parts[1..][j - 1] == parts[j];
        }
      }
    }
  }

  // --------------------------------------------------------- interfaces

  /** The line an address contributes: IPv4 and link-layer addresses only
      (collector.py:117-121). */
  function AddressLines(addrs: seq<Address>): (r: seq<string>)
    ensures |r| <= |addrs|
  {
    if addrs == [] then []
    else
      (match addrs[0].family
       case Inet => ["  IPv4-адрес: " + addrs[0].address]
       case Link => ["  MAC-адрес: " + addrs[0].address]
       case OtherFamily => [])
      + AddressLines(addrs[1..])
  }

  /** Per interface a heading, then its addresses (collector.py:115-121). */
  function InterfaceLines(ifaces: seq<Interface>): (r: seq<string>)
    ensures |ifaces| <= |r| <= |ifaces| + CountAddresses(ifaces)
  {
    if ifaces == [] then []
    else [InterfacePrefix + ifaces[0].name] + AddressLines(ifaces[0].addresses) + InterfaceLines(ifaces[1..])
  }

  /** How many addresses the interfaces have in all. */
  function CountAddresses(ifaces: seq<Interface>): nat {
    if ifaces == [] then 0 else |ifaces[0].addresses| + CountAddresses(ifaces[1..])
  }

  /** An address of any other family leaves no trace. */
  lemma {:induction false} OtherFamilyInvisible(before: seq<Address>, a: Address, after: seq<Address>)
    requires a.family.OtherFamily?
    ensures AddressLines(before + [a] + after) == AddressLines(before + after)
  {
    if before == [] {
      assert before + [a] + after == [a] + after;
      assert before + after == after;
      assert ([a] + after)[0] == a && ([a] + after)[1..] == after;
    } else {
      assert (before + [a] + after)[1..] == before[1..] + [a] + after;
      assert (before + after)[1..] == before[1..] + after;
      OtherFamilyInvisible(before[1..], a, after);
    }
  }

  /** The addresses of two runs of the enumeration give their lines one
      after the other. */
  lemma {:induction false} AddressLinesAppend(a: seq<Address>, b: seq<Address>)
    ensures AddressLines(a + b) == AddressLines(a) + AddressLines(b)
  {
    if a != [] {
      assert (a + b)[0] == a[0] && (a + b)[1..] == a[1..] + b;
      AddressLinesAppend(a[1..], b);
    } else {
      assert a + b == b;
    }
  }

  /** An IPv4 or link-layer address gives its own line, in its place among
      the others. */
  lemma AddressLinesKept(before: seq<Address>, a: Address, after: seq<Address>)
    requires !a.family.OtherFamily?
    ensures AddressLines([a]) == [(if a.family.Inet? then "  IPv4-адрес: " else "  MAC-адрес: ") + a.address]
    ensures AddressLines(before + [a] + after) == AddressLines(before) + AddressLines([a]) + AddressLines(after)
  {
    assert [a][0] == a && [a][1..] == [];
    AddressLinesAppend(before, [a]);
    AddressLinesAppend(before + [a], after);
  }

  /** Each interface's heading is followed by that interface's own
      address lines, in its place in the enumeration. */
  lemma InterfaceBlock(before: seq<Interface>, i: Interface, after: seq<Interface>)
    ensures InterfaceLines(before + [i] + after)
         == InterfaceLines(before) + [InterfacePrefix + i.name] + AddressLines(i.addresses) + InterfaceLines(after)
  {
    assert [i][0] == i && [i][1..] == [];
    assert InterfaceLines([i]) == [InterfacePrefix + i.name] + AddressLines(i.addresses);
    InterfaceLinesAppend(before, [i]);
    InterfaceLinesAppend(before + [i], after);
  }

  /** Address lines are indented, so they are never headings. */
  predicate IsHeading(line: string) {
    |line| >= |InterfacePrefix| && line[..|InterfacePrefix|] == InterfacePrefix
  }

  function CountHeadings(lines: seq<string>): nat {
    if lines == [] then 0 else (if IsHeading(lines[0]) then 1 else 0) + CountHeadings(lines[1..])
  }

  lemma {:induction false} CountHeadingsAppend(a: seq<string>, b: seq<string>)
    ensures CountHeadings(a + b) == CountHeadings(a) + CountHeadings(b)
  {
    if a != [] {
      assert (a + b)[1..] == a[1..] + b;
      CountHeadingsAppend(a[1..], b);
    } else {
      assert a + b == b;
    }
  }

  /** Address lines are indented, so none of them is a heading. */
  lemma {:induction false} AddressLinesAreNotHeadings(addrs: seq<Address>)
    ensures CountHeadings(AddressLines(addrs)) == 0
    ensures forall i :: 0 <= i < |AddressLines(addrs)| ==>
      |AddressLines(addrs)[i]| > 0 && AddressLines(addrs)[i][0] == ' '
  {
    if addrs != [] {
      AddressLinesAreNotHeadings(addrs[1..]);
      var rest := AddressLines(addrs[1..]);
      if !addrs[0].family.OtherFamily? {
        var line := AddressLines(addrs)[0];
        assert AddressLines(addrs) == [line] + rest;
        assert line[0] == ' ';
        assert !IsHeading(line);
        CountHeadingsAppend([line], rest);
      } else {
        assert AddressLines(addrs) == rest;
      }
    }
  }

  /** Each interface contributes exactly one heading. */
  lemma {:induction false} OneHeadingPerInterface(ifaces: seq<Interface>)
    ensures CountHeadings(InterfaceLines(ifaces)) == |ifaces|
  {
    if ifaces != [] {
      OneHeadingPerInterface(ifaces[1..]);
      AddressLinesAreNotHeadings(ifaces[0].addresses);
      var head := InterfacePrefix + ifaces[0].name;
      assert head[..|InterfacePrefix|] == InterfacePrefix;
      CountHeadingsAppend([head], AddressLines(ifaces[0].addresses));
      CountHeadingsAppend([head] + AddressLines(ifaces[0].addresses), InterfaceLines(ifaces[1..]));
    }
  }

  /** The interfaces' blocks are independent and keep enumeration order. */
  lemma {:induction false} InterfaceLinesAppend(a: seq<Interface>, b: seq<Interface>)
    ensures InterfaceLines(a + b) == InterfaceLines(a) + InterfaceLines(b)
  {
    if a != [] {
      assert (a + b)[1..] == a[1..] + b;
      InterfaceLinesAppend(a[1..], b);
    } else {
      assert a + b == b;
    }
  }

  // ------------------------------------------------------ the whole report

  /** `first`'s failure, else its lines in front of `rest`. */
  function Then(first: Probe<seq<string>>, rest: Probe<seq<string>>): Probe<seq<string>> {
    match first
    case Raised(_) => first
    case Got(lines) => Glue(lines, rest)
  }

  /** Identity, OS, clock and uptime (collector.py:50-62), or the first of
      those calls that raised. */
  function SystemLines(src: Sources): (r: Probe<seq<string>>)
    requires ValidTimestamp(src.clock)
    ensures r.Raised? <==> src.user.Raised? || src.host.Raised? || src.platform.Raised? || src.uptime.Raised?
    ensures src.user.Raised? ==> r == Raised(src.user.trace)
    ensures src.user.Got? && src.host.Raised? ==> r == Raised(src.host.trace)
    ensures src.user.Got? && src.host.Got? && src.platform.Raised? ==> r == Raised(src.platform.trace)
    ensures src.user.Got? && src.host.Got? && src.platform.Got? && src.uptime.Raised? ==> r == Raised(src.uptime.trace)
    ensures r.Got? ==> |r.value| == 6 && r.value[0] == SystemHeading
  {
    if src.user.Raised? then Raised(src.user.trace)
    else if src.host.Raised? then Raised(src.host.trace)
    else if src.platform.Raised? then Raised(src.platform.trace)
    else if src.uptime.Raised? then Raised(src.uptime.trace)
    else Got([
      SystemHeading,
      "Имя пользователя: " + src.user.value,
      "Имя компьютера: " + src.host.value,
      "ОС: " + src.platform.value,
      "Время сбора данных: " + ClockText(src.clock),
      "Время работы системы: " + src.uptime.value])
  }

  /** Processor model and core counts (collector.py:64-71). */
  function CpuLines(src: Sources): (r: Probe<seq<string>>)
    ensures r.Raised? <==> src.cpuModel.Raised? || src.physicalCores.Raised? || src.logicalCores.Raised?
    ensures src.cpuModel.Raised? ==> r == Raised(src.cpuModel.trace)
    ensures src.cpuModel.Got? && src.physicalCores.Raised? ==> r == Raised(src.physicalCores.trace)
    ensures src.cpuModel.Got? && src.physicalCores.Got? && src.logicalCores.Raised? ==> r == Raised(src.logicalCores.trace)
    ensures r.Got? ==> |r.value| == 4 && r.value[0] == CpuHeading
  {
    if src.cpuModel.Raised? then Raised(src.cpuModel.trace)
    else if src.physicalCores.Raised? then Raised(src.physicalCores.trace)
    else if src.logicalCores.Raised? then Raised(src.logicalCores.trace)
    else Got([
      CpuHeading,
      "Модель: " + src.cpuModel.value,
      "Физические ядра: " + src.physicalCores.value,
      "Логические ядра (потоки): " + src.logicalCores.value])
  }

  /** Memory figures (collector.py:73-81). */
  function MemoryLines(memory: Probe<Memory>): (r: Probe<seq<string>>)
    ensures r.Raised? <==> memory.Raised?
    ensures memory.Raised? ==> r == Raised(memory.trace)
    ensures r.Got? ==> |r.value| == 4 && r.value[0] == MemoryHeading
  {
    match memory
    case Raised(t) => Raised(t)
    case Got(m) => Got([
      MemoryHeading,
      "Всего: " + m.total + " ГБ",
      "Использовано: " + m.used + " ГБ (" + m.percent + "%)",
      "Свободно: " + m.available + " ГБ"])
  }

  function DiskSection(partitions: Probe<seq<Partition>>): Probe<seq<string>> {
    match partitions
    case Raised(t) => Raised(t)
    case Got(parts) => Glue([DiskHeading], DiskLines(parts))
  }

  function InterfaceSection(interfaces: Probe<seq<Interface>>): Probe<seq<string>> {
    match interfaces
    case Raised(t) => Raised(t)
    case Got(ifaces) => Got([InterfacesHeading] + InterfaceLines(ifaces))
  }

  /** Everything after the address section, in report order. */
  function LaterSections(src: Sources): Probe<seq<string>>
    requires ValidTimestamp(src.clock)
  {
    Then(SystemLines(src), FromCpu(src))
  }

  /** The report from the processor section on. */
  function FromCpu(src: Sources): Probe<seq<string>> {
    Then(CpuLines(src), FromMemory(src))
  }

  /** The report from the memory section on. */
  function FromMemory(src: Sources): Probe<seq<string>> {
    Then(MemoryLines(src.memory), FromGpu(src))
  }

  /** The report from the graphics section on. */
  function FromGpu(src: Sources): Probe<seq<string>> {
    Glue(GpuLines(src.gpu), FromDisks(src))
  }

  /** The disk section and the interface section. */
  function FromDisks(src: Sources): Probe<seq<string>> {
    Then(DiskSection(src.partitions), InterfaceSection(src.interfaces))
  }

  /** The report's lines, or the traceback that replaced them. */
  function Assemble(src: Sources): (r: Probe<seq<string>>)
    requires ValidTimestamp(src.clock)
    ensures r.Got? ==> |r.value| > 1 && r.value[0] == IpHeading
  {
    Glue([IpHeading] + IpLines(src.lookup), LaterSections(src))
  }

  /** What `collect_system_info` returns. */
  function ReportText(src: Sources): (r: string)
    requires ValidTimestamp(src.clock)
    ensures IsPrefix(IpHeading, r) || IsPrefix(CrashPrefix, r)
  {
    match Assemble(src)
    case Got(lines) =>
      JoinStartsWithFirst(lines, "\n");
      Join(lines, "\n")
    case Raised(t) => CrashPrefix + t
  }

  /** The report is abandoned exactly when an unguarded call raised or a
      partition's usage lookup failed other than by denial or absence;
      the address lookup and the GPU query can never abandon it. */
  lemma ReportFailsIff(src: Sources)
    requires ValidTimestamp(src.clock)
    ensures Assemble(src).Raised? <==>
      || src.user.Raised? || src.host.Raised? || src.platform.Raised? || src.uptime.Raised?
      || src.cpuModel.Raised? || src.physicalCores.Raised? || src.logicalCores.Raised?
      || src.memory.Raised? || src.partitions.Raised?
      || (src.partitions.Got? && exists j :: 0 <= j < |src.partitions.value| && src.partitions.value[j].usage.UsageFailed?)
      || src.interfaces.Raised?
  {
    if src.partitions.Got? {
      DiskLinesFail(src.partitions.value);
    }
  }

  /** Whatever the address lookup did, the rest of the report is the same:
      an unreachable service only changes the lines under its heading. */
  lemma LookupOnlyAffectsItsSection(src: Sources, lookup: IpLookup)
    requires ValidTimestamp(src.clock)
    ensures var other := src.(lookup := lookup);
      && LaterSections(other) == LaterSections(src)
      && (Assemble(src).Raised? <==> Assemble(other).Raised?)
      && (LaterSections(src).Got? ==>
           && Assemble(src).value == [IpHeading] + IpLines(src.lookup) + LaterSections(src).value
           && Assemble(other).value == [IpHeading] + IpLines(lookup) + LaterSections(src).value)
  {
  }

  /** A partition denied or not found leaves the whole report as if it
      did not exist. */
  lemma SkippedPartitionLeavesReport(src: Sources, before: seq<Partition>, p: Partition, after: seq<Partition>)
    requires ValidTimestamp(src.clock)
    requires p.usage.PermissionDenied? || p.usage.PathNotFound?
    ensures ReportText(src.(partitions := Got(before + [p] + after)))
         == ReportText(src.(partitions := Got(before + after)))
  {
    SkippedPartitionInvisible(before, p, after);
    var with, without := src.(partitions := Got(before + [p] + after)), src.(partitions := Got(before + after));
    assert FromDisks(with) == FromDisks(without);
    assert FromCpu(with) == FromCpu(without);
    assert Assemble(with) == Assemble(without);
  }

  /** The section texts in report order, when nothing abandoned it: the
      lines joined by newlines are the sections' texts joined by newlines. */
  lemma ReportTextSections(src: Sources)
    requires ValidTimestamp(src.clock)
    requires LaterSections(src).Got?
    ensures ReportText(src) == Join([IpHeading] + IpLines(src.lookup), "\n") + "\n" + Join(LaterSections(src).value, "\n")
  {
    var later := LaterSections(src).value;
    assert later != [] by {
      assert SystemLines(src).Got?;
      assert later[0] == SystemHeading;
    }
    JoinAppend([IpHeading] + IpLines(src.lookup), later, "\n");
  }

  /** When nothing abandoned the report, the sections after the address
      section follow one another in this order: system, processor, memory,
      graphics, the disk heading and its lines, the interface heading and
      its lines. */
  lemma LaterSectionsOrder(src: Sources)
    requires ValidTimestamp(src.clock)
    requires LaterSections(src).Got?
    ensures SystemLines(src).Got? && CpuLines(src).Got? && MemoryLines(src.memory).Got?
    ensures src.partitions.Got? && DiskLines(src.partitions.value).Got? && src.interfaces.Got?
    ensures LaterSections(src).value
         == SystemLines(src).value + CpuLines(src).value + MemoryLines(src.memory).value + GpuLines(src.gpu)
            + [DiskHeading] + DiskLines(src.partitions.value).value
            + [InterfacesHeading] + InterfaceLines(src.interfaces.value)
  {
    var sys, cpu, mem := SystemLines(src).value, CpuLines(src).value, MemoryLines(src.memory).value;
    var gpu := GpuLines(src.gpu);
    var disks := [DiskHeading] + DiskLines(src.partitions.value).value;
    var nets := [InterfacesHeading] + InterfaceLines(src.interfaces.value);
    assert FromDisks(src).value == disks + nets;
    assert FromGpu(src).value == gpu + (disks + nets);
    assert FromMemory(src).value == mem + (gpu + (disks + nets));
    assert FromCpu(src).value == cpu + (mem + (gpu + (disks + nets)));
    assert LaterSections(src).value == sys + (cpu + (mem + (gpu + (disks + nets))));
    assert sys + (cpu + (mem + (gpu + (disks + nets))))
        == sys + cpu + mem + gpu + [DiskHeading] + DiskLines(src.partitions.value).value
           + [InterfacesHeading] + InterfaceLines(src.interfaces.value);
  }

  // --------------------------------------------------------- the methods

  /** The address block (collector.py:24-48): `lines` with the heading and
      the lookup's lines appended. */
  method AppendLookup(lines: seq<string>, lookup: IpLookup) returns (out: seq<string>)
    ensures out == lines + [IpHeading] + IpLines(lookup)
  {
    out := lines + [IpHeading];
    match lookup {
      case Answered(status, body) =>
        if status == 200 {
          match body {
            case JsonObject(fields) =>
              var i := 0;
              while i < |KeyMap|
                invariant 0 <= i <= |KeyMap|
                invariant out + KeyLines(fields, KeyMap[i..]) == lines + [IpHeading] + KeyLines(fields, KeyMap)
              {
                assert KeyMap[i..][0] == KeyMap[i] && KeyMap[i..][1..] == KeyMap[i + 1..];
                var key, caption := KeyMap[i].0, KeyMap[i].1;
                if key in fields && Truthy(fields[key]) {
                  out := out + [caption + ": " + Shown(fields[key])];
                }
                i := i + 1;
              }
            case Unreadable(e) =>
              out := out + [NoInformation + e];
          }
        } else {
          out := out + [LookupError + Decimal(status)];
        }
      case RequestFailed(e) =>
        out := out + [NoInformation + e];
    }
  }

  /** The partition loop (collector.py:104-112): `lines` with one line per
      measured partition appended, or the failure that escaped it. */
  method AppendDisks(lines: seq<string>, parts: seq<Partition>) returns (out: Probe<seq<string>>)
    ensures out == Glue(lines, DiskLines(parts))
  {
    var acc := lines;
    var j := 0;
    while j < |parts|
      invariant 0 <= j <= |parts|
      invariant Glue(acc, DiskLines(parts[j..])) == Glue(lines, DiskLines(parts))
    {
      assert parts[j..][0] == parts[j] && parts[j..][1..] == parts[j + 1..];
      match parts[j].usage {
        case Measured(total, used, percent) =>
          GlueGlue(acc, [DiskLine(parts[j])], DiskLines(parts[j + 1..]));
          acc := acc + [DiskLine(parts[j])];
        case UsageFailed(t) =>
          assert DiskLines(parts[j..]) == Raised(t);
          return Raised(t);
        case _ =>
      }
      j := j + 1;
    }
    assert parts[j..] == [] && acc + [] == acc;
    out := Got(acc);
  }

  /** The address loop of one interface (collector.py:117-121). */
  method AppendAddresses(lines: seq<string>, addrs: seq<Address>) returns (out: seq<string>)
    ensures out == lines + AddressLines(addrs)
  {
    out := lines;
    var m := 0;
    while m < |addrs|
      invariant 0 <= m <= |addrs|
      invariant out + AddressLines(addrs[m..]) == lines + AddressLines(addrs)
    {
      assert addrs[m..][0] == addrs[m] && addrs[m..][1..] == addrs[m + 1..];
      match addrs[m].family {
        case Inet => out := out + ["  IPv4-адрес: " + addrs[m].address];
        case Link => out := out + ["  MAC-адрес: " + addrs[m].address];
        case OtherFamily =>
      }
      m := m + 1;
    }
    assert addrs[m..] == [];
  }

  /** The interface loop (collector.py:115-121): `lines` with each
      interface's heading and addresses appended. */
  method AppendInterfaces(lines: seq<string>, ifaces: seq<Interface>) returns (out: seq<string>)
    ensures out == lines + InterfaceLines(ifaces)
  {
    out := lines;
    var k := 0;
    while k < |ifaces|
      invariant 0 <= k <= |ifaces|
      invariant out + InterfaceLines(ifaces[k..]) == lines + InterfaceLines(ifaces)
    {
      assert ifaces[k..][0] == ifaces[k] && ifaces[k..][1..] == ifaces[k + 1..];
      ghost var before := out;
      out := out + [InterfacePrefix + ifaces[k].name];
      out := AppendAddresses(out, ifaces[k].addresses);
      assert out + InterfaceLines(ifaces[k + 1..]) == before + InterfaceLines(ifaces[k..]);
      k := k + 1;
    }
    assert ifaces[k..] == [];
  }

  /** The sections after the address block (collector.py:50-121) appended
      to `lines`, or the traceback of the first unguarded call that raised. */
  method AppendLater(lines: seq<string>, src: Sources) returns (out: Probe<seq<string>>)
    requires ValidTimestamp(src.clock)
    ensures out == Glue(lines, LaterSections(src))
  {
    if src.user.Raised? { return Raised(src.user.trace); }
    if src.host.Raised? { return Raised(src.host.trace); }
    if src.platform.Raised? { return Raised(src.platform.trace); }
    if src.uptime.Raised? { return Raised(src.uptime.trace); }
    var acc := lines + SystemLines(src).value;
    GlueGlue(lines, SystemLines(src).value, FromCpu(src));

    if src.cpuModel.Raised? { return Raised(src.cpuModel.trace); }
    if src.physicalCores.Raised? { return Raised(src.physicalCores.trace); }
    if src.logicalCores.Raised? { return Raised(src.logicalCores.trace); }
    GlueGlue(acc, CpuLines(src).value, FromMemory(src));
    acc := acc + CpuLines(src).value;

    if src.memory.Raised? { return Raised(src.memory.trace); }
    GlueGlue(acc, MemoryLines(src.memory).value, FromGpu(src));
    acc := acc + MemoryLines(src.memory).value;

    GlueGlue(acc, GpuLines(src.gpu), FromDisks(src));
    acc := acc + GpuLines(src.gpu);
    out := AppendFromDisks(acc, src);
  }

  /** The disk and interface sections (collector.py:103-121) appended to
      `lines`, or the failure that escaped them. */
  method AppendFromDisks(lines: seq<string>, src: Sources) returns (out: Probe<seq<string>>)
    ensures out == Glue(lines, FromDisks(src))
  {
    if src.partitions.Raised? { return Raised(src.partitions.trace); }
    var disks := AppendDisks(lines + [DiskHeading], src.partitions.value);
    if disks.Raised? { return disks; }
    assert DiskLines(src.partitions.value).Got?;
    assert disks.value == lines + DiskSection(src.partitions).value;
    GlueGlue(lines, DiskSection(src.partitions).value, InterfaceSection(src.interfaces));

    if src.interfaces.Raised? { return Raised(src.interfaces.trace); }
    var acc := AppendInterfaces(disks.value + [InterfacesHeading], src.interfaces.value);
    assert acc == disks.value + InterfaceSection(src.interfaces).value;
    out := Got(acc);
  }

  /** `collect_system_info` (collector.py:15-126): appends section after
      section to one list and returns the joined text, or the failure text
      when an unguarded call raised. */
  method CollectSystemInfo(src: Sources) returns (report: string)
    requires ValidTimestamp(src.clock)
    ensures report == ReportText(src)
  {
    var lines := AppendLookup([], src.lookup);
    assert lines == [IpHeading] + IpLines(src.lookup);
    var all := AppendLater(lines, src);
    match all {
      case Got(done) => report := Join(done, "\n");
      case Raised(t) => report := CrashPrefix + t;
    }
  }
}
