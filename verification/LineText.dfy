/**
 The text of a raw line that counts: up to the first ';', unless the line begins with '!'. Nothing here says
 how the text is found.
 */
module LineText {
  import opened Wrappers
  import opened DriverTypes
  import opened DriverSpec

  /** `part` is the line up to its first ';', or all of a line that has none. */
  predicate CodePart(part: string, line: string) {
    part <= line && ';' !in part && (part == line || line[|part|] == ';')
  }

  predicate BeginsWithBang(line: string) {
    line != [] && line[0] == '!'
  }

  /** The line stands for this gcode: itself if it begins with '!', otherwise its code part unless that is blank. */
  ghost predicate StandsFor(cfg: Config, line: string, gcode: string) {
    if BeginsWithBang(line) then gcode == line else CodePart(gcode, line) && !cfg.isBlank(gcode)
  }

  /** The line stands for nothing. */
  ghost predicate StandsForNothing(cfg: Config, line: string) {
    !BeginsWithBang(line) && exists part :: CodePart(part, line) && cfg.isBlank(part)
  }

  lemma {:induction false} OneCodePart(part: string, other: string, line: string)
    requires CodePart(part, line) && CodePart(other, line)
    ensures part == other
  {
    assert forall k :: 0 <= k < |part| ==> line[k] == part[k] && part[k] in part;
    assert forall k :: 0 <= k < |other| ==> line[k] == other[k] && other[k] in other;
  }

  lemma {:induction false} BeforeSemicolonIsCodePart(line: string)
    ensures CodePart(BeforeSemicolon(line), line)
  {
    if line != [] && line[0] != ';' {
      BeforeSemicolonIsCodePart(line[1..]);
      assert line == [line[0]] + line[1..];
    }
  }

  /** What the driver makes of a line is what the line stands for. */
  lemma {:induction false} CleanStands(cfg: Config, line: string)
    ensures forall gcode :: Clean(cfg, line) == Some(gcode) <==> StandsFor(cfg, line, gcode)
    ensures Clean(cfg, line) == None <==> StandsForNothing(cfg, line)
  {
    BeforeSemicolonIsCodePart(line);
    forall part | CodePart(part, line) ensures part == BeforeSemicolon(line) {
      OneCodePart(part, BeforeSemicolon(line), line);
    }
  }

  /** Some lines of a list, in order: their positions increase. */
  predicate Increasing(at: seq<nat>, length: nat) {
    (forall k :: 0 <= k < |at| ==> at[k] < length) && forall j, k :: 0 <= j < k < |at| ==> at[j] < at[k]
  }

  /** The lines at these positions stand for the gcodes, in order, and all other lines for nothing. */
  ghost predicate Picks(cfg: Config, lines: seq<string>, gcodes: seq<string>, at: seq<nat>) {
    && |at| == |gcodes| && Increasing(at, |lines|)
    && (forall k :: 0 <= k < |at| ==> StandsFor(cfg, lines[at[k]], gcodes[k]))
    && (forall i :: 0 <= i < |lines| && i !in at ==> StandsForNothing(cfg, lines[i]))
  }

  function Shifted(at: seq<nat>): (shifted: seq<nat>)
    ensures |shifted| == |at| && forall k :: 0 <= k < |at| ==> shifted[k] == at[k] + 1
    ensures forall i :: i in shifted <==> i > 0 && i - 1 in at
  {
    var shifted := seq(|at|, k requires 0 <= k < |at| => at[k] + 1);
    assert forall k :: 0 <= k < |at| ==> shifted[k] == at[k] + 1;
    assert forall i :: i > 0 && i - 1 in at ==> i in shifted by {
      assert forall k :: 0 <= k < |at| ==> shifted[k] in shifted;
    }
    shifted
  }

  /** One more line in front. */
  lemma {:induction false} PickedBehind(cfg: Config, line: string, lines: seq<string>, gcodes: seq<string>, at: seq<nat>)
    requires Picks(cfg, lines, gcodes, at)
    ensures StandsForNothing(cfg, line) ==> Picks(cfg, [line] + lines, gcodes, Shifted(at))
    ensures forall gcode | StandsFor(cfg, line, gcode) :: Picks(cfg, [line] + lines, [gcode] + gcodes, [0] + Shifted(at))
  {
    hide StandsFor, StandsForNothing;
    var all := [line] + lines;
    assert forall i :: 0 < i < |all| ==> all[i] == lines[i - 1];
  }

  /** The gcodes of a list of lines are what the lines stand for, in order. */
  lemma {:induction false} GcodesArePicked(cfg: Config, lines: seq<string>) returns (at: seq<nat>)
    ensures Picks(cfg, lines, Gcodes(cfg, lines), at)
  {
    if lines == [] {
      at := [];
    } else {
      CleanStands(cfg, lines[0]);
      var rest := GcodesArePicked(cfg, lines[1..]);
      hide Clean, StandsFor, StandsForNothing, Picks;
      PickedBehind(cfg, lines[0], lines[1..], Gcodes(cfg, lines[1..]), rest);
      assert [lines[0]] + lines[1..] == lines;
      at := (if Clean(cfg, lines[0]).Some? then [0] else []) + Shifted(rest);
      assert [] + Shifted(rest) == Shifted(rest);
    }
  }
}
