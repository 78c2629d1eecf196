/** The question-and-answer engine: labels are written to an output buffer and each
    handle reads one line of input. */
module Repl {
  import opened Base

  /** What `read_line` takes off the input: everything up to and including the first
      newline, or the rest of the input when there is no newline; nothing at the end
      of the input. */
  function NextLine(s: string): (line: string)
    ensures |line| <= |s| && line == s[..|line|]
    ensures line == [] <==> s == []
    ensures forall i :: 0 <= i < |line| - 1 ==> line[i] != '\n'
    ensures |line| < |s| ==> line[|line| - 1] == '\n'
    ensures '\n' !in s ==> line == s
  {
    if s == [] then []
    else if s[0] == '\n' then ['\n']
    else [s[0]] + NextLine(s[1..])
  }

  /** The text written by `n` rounds that each render the same label. */
  function Repeat(s: string, n: nat): (r: string)
    ensures |r| == |s| * n
  {
    if n == 0 then [] else Repeat(s, n - 1) + s
  }

  /** The input left after one `read_line`: everything after the first newline, or
      nothing when there is none. */
  function Skip(s: string): string
  {
    if s == [] then [] else if s[0] == '\n' then s[1..] else Skip(s[1..])
  }

  /** `read_line` splits the input into the line it returns and what `Skip` leaves. */
  lemma {:induction false} SkipIsRest(s: string)
    ensures Skip(s) == s[|NextLine(s)|..]
  {
    if s != [] && s[0] != '\n' {
      SkipIsRest(s[1..]);
      assert NextLine(s) == [s[0]] + NextLine(s[1..]);
    }
  }

  /** The input left after `n` calls of `read_line`. */
  function Consumed(s: string, n: nat): string
  {
    if n == 0 then s else Skip(Consumed(s, n - 1))
  }

  class Engine {
    /** Input not yet read. */
    var input: string
    /** Everything written so far. */
    var output: string
    var exited: bool
    /** Whether the output sink refuses writes (an in-memory buffer never does). */
    var sinkFails: bool

    /** `harness(input)`: predefined input, an empty in-memory output, not exited. */
    constructor Harness(text: string)
      ensures input == text && output == [] && !exited && !sinkFails
    {
      input := text;
      output := [];
      exited := false;
      sinkFails := false;
    }

    /** `exited()`: the public flag. */
    function Exited(): (r: bool)
      reads this
      ensures r <==> exited
    {
      exited
    }

    /** `write(data)`: append exactly `data`, or fail and append nothing. */
    method Write(data: string) returns (r: Result<()>)
      modifies this
      ensures r.Ok? <==> !sinkFails
      ensures r.Ok? ==> r == Ok(()) && output == old(output) + data
      ensures r.Err? ==> r == Err(Io) && output == old(output)
      ensures input == old(input) && exited == old(exited) && sinkFails == old(sinkFails)
    {
      if sinkFails {
        return Err(Io);
      }
      output := output + data;
      r := Ok(());
    }

    /** `read_line()`: take the next line off the input and return it. */
    method ReadLine() returns (r: Result<string>)
      modifies this
      ensures r.Ok? && r.value + input == old(input)
      ensures r.value == NextLine(old(input))
      ensures output == old(output) && exited == old(exited) && sinkFails == old(sinkFails)
    {
      var line := NextLine(input);
      input := input[|line|..];
      r := Ok(line);
    }

    /** `&str`/`String` render: write the label's bytes and report `[len, 1]`; a
        failed write is passed on and reports no size. */
    method RenderLabel(s: string) returns (r: Result<Option<Size>>)
      modifies this
      ensures r.Ok? <==> !sinkFails
      ensures r.Ok? ==> r == Ok(Some(Size(Truncate(|s|), 1))) && output == old(output) + s
      ensures r.Err? ==> r == Err(Io) && output == old(output)
      ensures input == old(input) && exited == old(exited) && sinkFails == old(sinkFails)
    {
      var written := Write(s);
      if written.Err? {
        return Err(written.error);
      }
      r := Ok(Some(Size(Truncate(|s|), 1)));
    }

    /** `render(widget)`: render once, then flush; a render error is passed on. */
    method Render(s: string) returns (r: Result<()>)
      modifies this
      ensures r.Ok? <==> !sinkFails
      ensures r.Ok? ==> r == Ok(()) && output == old(output) + s
      ensures r.Err? ==> r == Err(Io) && output == old(output)
      ensures input == old(input) && exited == old(exited) && sinkFails == old(sinkFails)
    {
      var rendered := RenderLabel(s);
      if rendered.Err? {
        return Err(rendered.error);
      }
      r := Ok(());
    }

    /** `handle(widget)`: consume one line of input; the widget is not consulted. */
    method Handle() returns (r: Result<()>)
      modifies this
      ensures r == Ok(())
      ensures input == old(input)[|NextLine(old(input))|..]
      ensures output == old(output) && exited == old(exited) && sinkFails == old(sinkFails)
    {
      var line := ReadLine();
      r := Ok(());
    }

    /** One round of the main loop: render the label, then handle one line. A
        failed render ends the round before any input is read. */
    method Round(text: string) returns (r: Result<()>)
      modifies this
      ensures r.Ok? <==> !sinkFails
      ensures r.Ok? ==> output == old(output) + text && input == Skip(old(input))
      ensures r.Err? ==> r == Err(Io) && output == old(output) && input == old(input)
      ensures exited == old(exited) && sinkFails == old(sinkFails)
    {
      SkipIsRest(input);
      r := Render(text);
      if r.Err? {
        return;
      }
      r := Handle();
    }

    /** The main loop on a label, for at most `fuel` rounds: render, handle, and stop
        once the flag is up. Nothing in a round raises the flag, so the loop ends
        after one round when it was up already and otherwise only when the fuel runs
        out (`Ok(false)`), writing the label once per round. */
    method Run(text: string, fuel: nat) returns (r: Result<bool>)
      modifies this
      ensures old(exited) && fuel > 0 && !sinkFails ==> r == Ok(true) && output == old(output) + text
      ensures !old(exited) && !sinkFails ==> r == Ok(false) && output == old(output) + Repeat(text, fuel)
      ensures sinkFails && fuel > 0 ==> r == Err(Io) && output == old(output)
      ensures exited == old(exited) && sinkFails == old(sinkFails)
      ensures input == Consumed(old(input), if sinkFails || fuel == 0 then 0 else if old(exited) then 1 else fuel)
    {
      var rounds := 0;
      while rounds < fuel
        invariant rounds <= fuel
        invariant exited == old(exited) && sinkFails == old(sinkFails)
        invariant output == old(output) + Repeat(text, rounds)
        invariant input == Consumed(old(input), rounds)
        invariant exited ==> rounds == 0
        invariant sinkFails ==> rounds == 0
        decreases fuel - rounds
      {
        Associative(old(output), Repeat(text, rounds), text);
        var rendered := Round(text);
        if rendered.Err? {
          return Err(rendered.error);
        }
        rounds := rounds + 1;
        if Exited() {
          assert Repeat(text, 1) == text;
          return Ok(true);
        }
      }
      r := Ok(false);
    }
  }

  /** The harness scenario: with the flag preset, running the label "just a label"
      on the input "newline\n" leaves exactly "just a label" in the output. */
  method JustALabel() returns (e: Engine, r: Result<bool>)
    ensures r == Ok(true) && e.output == "just a label"
  {
    e := new Engine.Harness("newline\n");
    e.exited := true;
    r := e.Run("just a label", 1);
  }

  /** The lines `read_line` returns one after the other until the input is used up. */
  function Lines(s: string): seq<string>
    decreases |s|
  {
    if s == [] then [] else [NextLine(s)] + Lines(s[|NextLine(s)|..])
  }

  /** The lines written back to back. */
  function Concat(ls: seq<string>): string
  {
    if ls == [] then [] else ls[0] + Concat(ls[1..])
  }

  /** `n` reads leave exactly the lines from the `n`-th on, or nothing once the
      input has fewer lines. */
  lemma {:induction false} ConsumedDropsLines(s: string, n: nat)
    ensures n <= |Lines(s)| ==> Lines(Consumed(s, n)) == Lines(s)[n..]
    ensures n >= |Lines(s)| ==> Consumed(s, n) == []
  {
    if n > 0 {
      ConsumedDropsLines(s, n - 1);
      var d := Consumed(s, n - 1);
      var rest := d[|NextLine(d)|..];
      SkipIsRest(d);
      if d != [] {
        assert Lines(d) == [NextLine(d)] + Lines(rest);
        if n <= |Lines(s)| {
          assert Lines(rest) == Lines(d)[1..];
          assert Lines(s)[n - 1..][1..] == Lines(s)[n..];
        }
      }
    }
  }

  /** Reading line by line gives back the input: the lines, written back to back,
      are the whole input, none of them is empty, and each one but the last ends
      with its newline. */
  lemma {:induction false} LinesRebuildInput(s: string)
    ensures Concat(Lines(s)) == s
    ensures forall i :: 0 <= i < |Lines(s)| ==> Lines(s)[i] != []
    ensures forall i :: 0 <= i < |Lines(s)| - 1 ==> Lines(s)[i][|Lines(s)[i]| - 1] == '\n'
    decreases |s|
  {
    if s != [] {
      var line := NextLine(s);
      var rest := s[|line|..];
      var ls, lr := Lines(s), Lines(rest);
      LinesRebuildInput(rest);
      assert ls == [line] + lr;
      assert Concat(ls) == s by {
        assert ls[0] == line && ls[1..] == lr;
        assert line == s[..|line|];
      }
      forall i | 0 <= i < |ls|
        ensures ls[i] != []
        ensures i < |ls| - 1 ==> ls[i][|ls[i]| - 1] == '\n'
      {
        if i == 0 {
          assert rest != [] ==> |line| < |s|;
        } else {
          assert ls[i] == lr[i - 1];
        }
      }
    }
  }
}
