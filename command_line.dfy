/**
  `parseCmdLine` (src/Speedtest.c) and the defaults `main` sets before calling it.

  The program keeps its configuration in process-wide globals; here they are the
  fields of class `Options`. `strtoul` is a parameter (a function from the argument
  text to a natural number), and `--help` ends parsing with the outcome `Exit(1)`
  instead of terminating the process.
 */
module CommandLine {
  import opened Wrappers

  /** The values the configuration globals hold, as one record. */
  datatype Settings = Settings(
    csvOutput: bool,
    totalToBeTransfered: nat,     // upload size in bytes (--upsize)
    totalDownloadTestCount: nat,  // download repeat count (--downtimes)
    randomizeBestServers: nat,    // pick among this many closest servers (--randomize)
    downloadUrl: Option<string>)  // user-supplied server URL (--server); NULL until set

  /** The values `main` stores before parsing; `downloadUrl` is a zero-initialised global. */
  const Defaults: Settings := Settings(false, 1024 * 1024, 1, 0, None)

  /** Whether the program goes on after parsing, or exits with a status code. */
  datatype Status = Continue | Exit(code: int)

  datatype Parsed = Parsed(settings: Settings, status: Status)

  /** The options that read their value from the next argument. */
  datatype ValueOption = ServerOption | UpSizeOption | DownTimesOption | RandomizeOption

  function Flag(o: ValueOption): string {
    match o
    case ServerOption => "--server"
    case UpSizeOption => "--upsize"
    case DownTimesOption => "--downtimes"
    case RandomizeOption => "--randomize"
  }

  predicate IsHelp(arg: string) {
    arg == "--help" || arg == "-h"
  }

  predicate TakesValue(arg: string) {
    arg == "--server" || arg == "--upsize" || arg == "--downtimes" || arg == "--randomize"
  }

  /** What the field belonging to a value option holds. */
  datatype FieldValue = Url(url: Option<string>) | Count(n: nat)

  function Get(s: Settings, o: ValueOption): FieldValue {
    match o
    case ServerOption => Url(s.downloadUrl)
    case UpSizeOption => Count(s.totalToBeTransfered)
    case DownTimesOption => Count(s.totalDownloadTestCount)
    case RandomizeOption => Count(s.randomizeBestServers)
  }

  /** The field value option `o` stores when its argument is `value`. */
  function Decode(o: ValueOption, value: string, strtoul: string -> nat): FieldValue {
    if o == ServerOption then Url(Some(value)) else Count(strtoul(value))
  }

  /** No help option among argv[1..hi). */
  predicate NoHelpBefore(argv: seq<string>, hi: nat) {
    forall j :: 1 <= j < hi && j < |argv| ==> !IsHelp(argv[j])
  }

  /**
    The loop reads argv[i+1] after a value option at i, unchecked; past the last
    argument C has only the NULL terminator. So a value option may be last only
    when a help option before it ends the loop first.
   */
  predicate ValuesPresent(argv: seq<string>) {
    |argv| >= 2 && TakesValue(argv[|argv| - 1]) ==> !NoHelpBefore(argv, |argv| - 1)
  }

  /** The effect of one loop iteration on a non-help argument argv[i]. */
  function Step(s: Settings, argv: seq<string>, i: nat, strtoul: string -> nat): Settings
    requires i < |argv| && (TakesValue(argv[i]) ==> i + 1 < |argv|)
  {
    var arg := argv[i];
    if arg == "--server" then s.(downloadUrl := Some(argv[i + 1]))
    else if arg == "--upsize" then s.(totalToBeTransfered := strtoul(argv[i + 1]))
    else if arg == "--downtimes" then s.(totalDownloadTestCount := strtoul(argv[i + 1]))
    else if arg == "--randomize" then s.(randomizeBestServers := strtoul(argv[i + 1]))
    else if arg == "--csv" then s.(csvOutput := true)
    else s
  }

  /** The loop from index i on, starting with settings s. */
  function ParseFrom(s: Settings, argv: seq<string>, strtoul: string -> nat, i: nat): Parsed
    requires 1 <= i && ValuesPresent(argv) && NoHelpBefore(argv, i)
    decreases |argv| - i
  {
    if i >= |argv| then Parsed(s, Continue)
    else if IsHelp(argv[i]) then Parsed(s, Exit(1))
    else ParseFrom(Step(s, argv, i, strtoul), argv, strtoul, i + 1)
  }

  /** The whole of `parseCmdLine`: argv[0], the program name, is skipped. */
  function Parse(s: Settings, argv: seq<string>, strtoul: string -> nat): Parsed
    requires ValuesPresent(argv)
  {
    ParseFrom(s, argv, strtoul, 1)
  }

  /** `--csv` at a scanned position j, with no help option before it. */
  predicate CsvAt(argv: seq<string>, j: int) {
    1 <= j < |argv| && NoHelpBefore(argv, j) && argv[j] == "--csv"
  }

  lemma {:induction false} CsvFrom(s: Settings, argv: seq<string>, strtoul: string -> nat, i: nat)
    requires 1 <= i && ValuesPresent(argv) && NoHelpBefore(argv, i)
    ensures ParseFrom(s, argv, strtoul, i).settings.csvOutput
            <==> s.csvOutput || exists j :: i <= j && CsvAt(argv, j)
    decreases |argv| - i
  {
    if i < |argv| && !IsHelp(argv[i]) {
      var t := Step(s, argv, i, strtoul);
      CsvFrom(t, argv, strtoul, i + 1);
      if argv[i] == "--csv" {
        assert CsvAt(argv, i);
      }
      if exists j :: i <= j && CsvAt(argv, j) {
        var j :| i <= j && CsvAt(argv, j);
        assert j == i ==> t.csvOutput;
      }
    }
  }

  /**
    `csvOutput` is set afterwards exactly when it was set before or `--csv` occurs
    before any help option; no other argument touches it.
   */
  lemma CsvOutputIff(s: Settings, argv: seq<string>, strtoul: string -> nat)
    requires ValuesPresent(argv)
    ensures Parse(s, argv, strtoul).settings.csvOutput <==> s.csvOutput || exists j :: CsvAt(argv, j)
  {
    CsvFrom(s, argv, strtoul, 1);
  }

  lemma {:induction false} StatusFrom(s: Settings, argv: seq<string>, strtoul: string -> nat, i: nat)
    requires 1 <= i && ValuesPresent(argv) && NoHelpBefore(argv, i)
    ensures ParseFrom(s, argv, strtoul, i).status == if NoHelpBefore(argv, |argv|) then Continue else Exit(1)
    decreases |argv| - i
  {
    if i < |argv| && !IsHelp(argv[i]) {
      StatusFrom(Step(s, argv, i, strtoul), argv, strtoul, i + 1);
    }
  }

  /** Parsing ends with exit status 1 exactly when `--help` or `-h` occurs in argv[1..]. */
  lemma HelpExits(s: Settings, argv: seq<string>, strtoul: string -> nat)
    requires ValuesPresent(argv)
    ensures Parse(s, argv, strtoul).status
            == if exists j :: 1 <= j < |argv| && IsHelp(argv[j]) then Exit(1) else Continue
  {
    StatusFrom(s, argv, strtoul, 1);
  }

  lemma {:induction false} PrefixFrom(s: Settings, a: seq<string>, b: seq<string>, strtoul: string -> nat, h: nat, i: nat)
    requires ValuesPresent(a) && ValuesPresent(b)
    requires 1 <= i <= h < |a| && h < |b| && a[..h + 1] == b[..h + 1]
    requires IsHelp(a[h]) && NoHelpBefore(a, i) && NoHelpBefore(b, i)
    ensures ParseFrom(s, a, strtoul, i) == ParseFrom(s, b, strtoul, i)
    decreases h - i
  {
    assert a[i] == a[..h + 1][i] == b[..h + 1][i] == b[i];
    if !IsHelp(a[i]) {
      assert i < h;
      assert a[i + 1] == a[..h + 1][i + 1] == b[..h + 1][i + 1] == b[i + 1];
      assert Step(s, a, i, strtoul) == Step(s, b, i, strtoul);
      PrefixFrom(Step(s, a, i, strtoul), a, b, strtoul, h, i + 1);
    }
  }

  /**
    Once a help option at index h ends the loop, nothing after it matters: any two
    argument vectors that agree up to and including h parse alike.
   */
  lemma HelpIgnoresLater(s: Settings, a: seq<string>, b: seq<string>, strtoul: string -> nat, h: nat)
    requires ValuesPresent(a) && ValuesPresent(b)
    requires 1 <= h < |a| && h < |b| && a[..h + 1] == b[..h + 1] && IsHelp(a[h])
    ensures Parse(s, a, strtoul) == Parse(s, b, strtoul)
    ensures Parse(s, a, strtoul).status == Exit(1)
  {
    var k :| 1 <= k <= h && IsHelp(a[k]) && NoHelpBefore(a, k) by {
      FirstHelpExists(a, h);
    }
    assert b[k] == b[..h + 1][k] == a[..h + 1][k] == a[k];
    assert NoHelpBefore(a, k);
    assert NoHelpBefore(b, k) by {
      forall j | 1 <= j < k && j < |b| ensures !IsHelp(b[j]) {
        assert b[j] == b[..h + 1][j] == a[..h + 1][j] == a[j];
        assert !IsHelp(a[j]);
      }
    }
    PrefixFrom(s, a, b, strtoul, k, 1);
    StatusFrom(s, a, strtoul, 1);
  }

  /** A help option at h means there is a first one, at some k <= h. */
  lemma {:induction false} FirstHelpExists(argv: seq<string>, h: nat)
    requires 1 <= h < |argv| && IsHelp(argv[h])
    ensures exists k :: 1 <= k <= h && IsHelp(argv[k]) && NoHelpBefore(argv, k)
    decreases h
  {
    if !NoHelpBefore(argv, h) {
      var j :| 1 <= j < h && j < |argv| && IsHelp(argv[j]);
      FirstHelpExists(argv, j);
    }
  }

  /** Option o at a scanned position j. */
  predicate OptionAt(argv: seq<string>, o: ValueOption, j: int) {
    1 <= j < |argv| && NoHelpBefore(argv, j) && argv[j] == Flag(o)
  }

  lemma {:induction false} AbsentFrom(s: Settings, argv: seq<string>, strtoul: string -> nat, o: ValueOption, i: nat)
    requires 1 <= i && ValuesPresent(argv) && NoHelpBefore(argv, i)
    requires forall j :: i <= j ==> !OptionAt(argv, o, j)
    ensures Get(ParseFrom(s, argv, strtoul, i).settings, o) == Get(s, o)
    decreases |argv| - i
  {
    if i < |argv| && !IsHelp(argv[i]) {
      assert !OptionAt(argv, o, i);
      AbsentFrom(Step(s, argv, i, strtoul), argv, strtoul, o, i + 1);
    }
  }

  /** A value option that does not occur before any help option leaves its field as it was. */
  lemma AbsentOptionKeepsValue(s: Settings, argv: seq<string>, strtoul: string -> nat, o: ValueOption)
    requires ValuesPresent(argv)
    requires forall j :: !OptionAt(argv, o, j)
    ensures Get(Parse(s, argv, strtoul).settings, o) == Get(s, o)
  {
    AbsentFrom(s, argv, strtoul, o, 1);
  }

  lemma {:induction false} LastFrom(s: Settings, argv: seq<string>, strtoul: string -> nat, o: ValueOption, k: nat, i: nat)
    requires 1 <= i <= k && ValuesPresent(argv) && NoHelpBefore(argv, i)
    requires OptionAt(argv, o, k) && k + 1 < |argv|
    requires forall j :: k < j ==> !OptionAt(argv, o, j)
    ensures Get(ParseFrom(s, argv, strtoul, i).settings, o) == Decode(o, argv[k + 1], strtoul)
    decreases k - i
  {
    assert !IsHelp(argv[i]);
    var t := Step(s, argv, i, strtoul);
    if i < k {
      LastFrom(t, argv, strtoul, o, k, i + 1);
    } else {
      assert Get(t, o) == Decode(o, argv[k + 1], strtoul);
      AbsentFrom(t, argv, strtoul, o, i + 1);
    }
  }

  /**
    The last occurrence of a value option wins: its field holds the value read from
    the argument that follows that occurrence.
   */
  lemma LastOccurrenceWins(s: Settings, argv: seq<string>, strtoul: string -> nat, o: ValueOption, k: nat)
    requires ValuesPresent(argv) && OptionAt(argv, o, k)
    requires forall j :: k < j ==> !OptionAt(argv, o, j)
    ensures k + 1 < |argv|
    ensures Get(Parse(s, argv, strtoul).settings, o) == Decode(o, argv[k + 1], strtoul)
  {
    LastFrom(s, argv, strtoul, o, k, 1);
  }

  /**
    The loop advances by one after a value option, so the value is itself examined
    as an option: `--server --csv` sets the URL to "--csv" and also sets `csvOutput`,
    and `--server --help` stores "--help" as the URL before exiting.
   */
  lemma ValueArgumentIsScanned(strtoul: string -> nat)
    ensures Parse(Defaults, ["speedtest", "--server", "--csv"], strtoul)
            == Parsed(Defaults.(downloadUrl := Some("--csv"), csvOutput := true), Continue)
    ensures Parse(Defaults, ["speedtest", "--server", "--help"], strtoul)
            == Parsed(Defaults.(downloadUrl := Some("--help")), Exit(1))
  {
  }

  /** The configuration globals. */
  class Options {
    var csvOutput: bool
    var totalTransfered: nat
    var totalToBeTransfered: nat
    var totalDownloadTestCount: nat
    var randomizeBestServers: nat
    var downloadUrl: Option<string>

    function Snapshot(): Settings
      reads this
    {
      Settings(csvOutput, totalToBeTransfered, totalDownloadTestCount, randomizeBestServers, downloadUrl)
    }

    /** The assignments at the start of `main`. */
    constructor ()
      ensures Snapshot() == Defaults
      ensures totalTransfered == 1024 * 1024
    {
      csvOutput := false;
      totalTransfered := 1024 * 1024;
      totalToBeTransfered := 1024 * 1024;
      totalDownloadTestCount := 1;
      randomizeBestServers := 0;
      downloadUrl := None;
    }

    method ParseCmdLine(argv: seq<string>, strtoul: string -> nat) returns (status: Status)
      requires ValuesPresent(argv)
      modifies this
      ensures Parsed(Snapshot(), status) == Parse(old(Snapshot()), argv, strtoul)
      ensures totalTransfered == old(totalTransfered)
    {
      var i := 1;
      while i < |argv|
        invariant 1 <= i && NoHelpBefore(argv, i)
        invariant ParseFrom(Snapshot(), argv, strtoul, i) == Parse(old(Snapshot()), argv, strtoul)
        invariant totalTransfered == old(totalTransfered)
        decreases |argv| - i
      {
        if argv[i] == "--help" || argv[i] == "-h" {
          status := Exit(1);
          return;
        }
        if argv[i] == "--server" {
          downloadUrl := Some(argv[i + 1]);
        }
        if argv[i] == "--upsize" {
          totalToBeTransfered := strtoul(argv[i + 1]);
        }
        if argv[i] == "--downtimes" {
          totalDownloadTestCount := strtoul(argv[i + 1]);
        }
        if argv[i] == "--randomize" {
          randomizeBestServers := strtoul(argv[i + 1]);
        }
        if argv[i] == "--csv" {
          csvOutput := true;
        }
        i := i + 1;
      }
      status := Continue;
    }
  }
}
