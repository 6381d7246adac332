/** What both tools do with their command line once the option parser has read
    it, and how `main` starts the workers. */
module Cli {
  import opened JavaLang
  import opened Jms

  /** What the option parser hands over: each option present, by its letter,
      with its argument text ("" for an option that takes none). */
  type CommandLine = map<char, string>

  /** How `parseCommandLine` ends. */
  datatype ParseOutcome<C> =
    | Configured(config: C)            // the tool goes on to run with this configuration
    | HelpShown                        // -h: usage printed, System.exit(0)
    | UsageError(reason: string)       // a ParseException: usage printed, System.exit(-1)
    | NumberFormatError(text: string)  // Integer.parseInt failed; the exception leaves main

  /** The process exit status each outcome leads to; None when the tool runs on.
      An exception that leaves `main` ends the JVM with status 1. */
  function ExitStatus<C>(o: ParseOutcome<C>): (r: Option<int>)
    ensures r.None? <==> o.Configured?
    ensures r == Some(0) <==> o.HelpShown?
    ensures o.UsageError? ==> r == Some(-1)
    ensures o.NumberFormatError? ==> r == Some(1)
  {
    match o
    case Configured(_) => None
    case HelpShown => Some(0)
    case UsageError(_) => Some(-1)
    case NumberFormatError(_) => Some(1)
  }

  /** The first of the integer options `letters`, in the order the tool reads
      them, whose text `Integer.parseInt` refuses. */
  function FirstBadNumber(line: CommandLine, letters: seq<char>): (r: Option<string>)
    ensures r.None? <==> forall i :: 0 <= i < |letters| && letters[i] in line ==> ParseInt(line[letters[i]]).Some?
    ensures r.Some? ==> exists i :: 0 <= i < |letters| && letters[i] in line && r.value == line[letters[i]]
                                    && ParseInt(r.value).None?
  {
    if letters == [] then None
    else if letters[0] in line && ParseInt(line[letters[0]]).None? then Some(line[letters[0]])
    else
      var rest := FirstBadNumber(line, letters[1..]);
      assert forall i :: 1 <= i < |letters| ==> letters[i] == letters[1..][i - 1];
      rest
  }

  /** The letter of the first of the integer options `letters` whose text
      `Integer.parseInt` refuses: the option whose value `FirstBadNumber`
      reports. */
  function FirstBadLetter(line: CommandLine, letters: seq<char>): (r: Option<char>)
    ensures r.Some? ==> r.value in letters && BadNumber(line, r.value)
    ensures FirstBadNumber(line, letters) == if r.Some? then Some(line[r.value]) else None
  {
    if letters == [] then None
    else if BadNumber(line, letters[0]) then Some(letters[0])
    else FirstBadLetter(line, letters[1..])
  }

  /** An integer option's value: the parsed text when the option is present
      (and parses), the current value otherwise. */
  function IntOption(line: CommandLine, letter: char, current: Int32): Int32
  {
    if letter in line && ParseInt(line[letter]).Some? then ParseInt(line[letter]).value else current
  }

  /** A flag option's value: set once the option is present, kept otherwise. */
  function FlagOption(line: CommandLine, letter: char, current: bool): bool
  {
    current || letter in line
  }

  /** A text option's value: the option's argument when present, the current
      value otherwise. */
  function TextOption(line: CommandLine, letter: char, current: string): string
  {
    if letter in line then line[letter] else current
  }

  /** A text option held in a field that starts out null. */
  function OptionalText(line: CommandLine, letter: char, current: Option<string>): Option<string>
  {
    if letter in line then Some(line[letter]) else current
  }

  /** The acknowledge mode option's value: the mode its text names, when it
      names one; the current mode otherwise. */
  function AckOption(line: CommandLine, current: AckMode): AckMode
  {
    if 'a' in line && ParseAckMode(line['a']).Some? then ParseAckMode(line['a']).value else current
  }

  /** Whether integer option `letter` is given with text `parseInt` refuses. */
  predicate BadNumber(line: CommandLine, letter: char)
  {
    letter in line && ParseInt(line[letter]).None?
  }

  /** How many times `main` runs the tool: `numThreads` runs on a thread pool
      when it is above 1, otherwise one run on the calling thread. */
  function WorkerCount(numThreads: Int32): (n: nat)
    ensures n >= 1 && n >= numThreads
    ensures numThreads >= 1 ==> n == numThreads
    ensures numThreads <= 1 ==> n == 1
  {
    if numThreads > 1 then numThreads else 1
  }
}
