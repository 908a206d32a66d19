/**
 The dbug call stack of one thread: entering and leaving functions, changing the settings, and keeping
 the TRACE_ON bit of every frame right (FixTraceFlags).

 The frames, which live on the callers' stacks and are linked from the innermost one, are a sequence from
 the outermost; `level` and `traced` are the two parts of _db_stack_frame_.level.  The settings above the
 global ones are a sequence from the current one.  The global settings do not change.
 */
module DbugTrace {
  import opened DbugList
  import opened DbugControl
  import DbugExplain

  // frame.func is the function that was current before the frame's own was entered.
  datatype Frame = Frame(func: string, level: nat, traced: bool)

  datatype Verdict = DoTrace | DontTrace | EnableTrace | DisableTrace

  // Whether a function that no rule names is traced at the bottom of the call stack.
  predicate Default(s: Settings) { !ListFlags(s.functions.links).included }

  // Whether the rules for the current function may speak at all.
  predicate Applies(s: Settings, process: string, level: nat, fnmatch: Pattern) {
    && (s.maxdepth == 0 || level <= s.maxdepth)
    && match InList(s.processes.links, process, fnmatch)
       case Entry(flags) => flags.included
       case Unlisted(matched, _) => matched
  }

  function Decide(s: Settings, process: string, level: nat, func: string, fnmatch: Pattern, inherited: bool): Verdict {
    if !Applies(s, process, level, fnmatch) then DontTrace
    else
      match InList(s.functions.links, func, fnmatch)
      case Entry(flags) =>
        if flags.included then (if flags.subdir then EnableTrace else DoTrace)
        else if flags.subdir then DisableTrace else DontTrace
      case Unlisted(matched, subdir) => if (matched || subdir) && inherited then DoTrace else DontTrace
  }

  predicate Subdir(s: Settings) { ListFlags(s.functions.links).subdir }

  class CodeState {
    const fnmatch: Pattern
    const process: string
    const global: Settings
    var func: string
    var level: nat
    var frames: seq<Frame>
    var stack: seq<Settings>

    ghost predicate Valid()
      reads this
    {
      && DbugExplain.GoodSettings(global) && global.out != Unset
      && (forall k :: 0 <= k < |stack| ==> DbugExplain.GoodSettings(stack[k]) && stack[k].out != Unset)
      && Settled(frames, Top())
    }

    function Top(): Settings
      reads this
    {
      if stack == [] then global else stack[0]
    }

    // With no SUBDIR rule every frame has the default.
    static predicate Settled(frames: seq<Frame>, s: Settings) {
      !Subdir(s) ==> forall i :: 0 <= i < |frames| ==> frames[i].traced == Default(s)
    }

    // The function frame i was pushed for, when `func` is current.
    static function Own(frames: seq<Frame>, func: string, i: nat): string
      requires i < |frames|
    {
      if i + 1 < |frames| then frames[i + 1].func else func
    }

    // The bit frame i should have: what the rules say about the functions from the outermost one in.
    function Bit(s: Settings, fs: seq<Frame>, f: string, i: nat): bool
      requires i < |fs|
    {
      match Decide(s, process, fs[i].level, Own(fs, f, i), fnmatch, false)
      case EnableTrace => true
      case DisableTrace => false
      case DoTrace => if i == 0 then Default(s) else Bit(s, fs, f, i - 1)
      case DontTrace => if i == 0 then Default(s) else Bit(s, fs, f, i - 1)
    }

    // The frames after a re-scan of the whole call stack.
    function Rescanned(s: Settings, fs: seq<Frame>, f: string): seq<Frame> {
      seq(|fs|, i requires 0 <= i < |fs| => fs[i].(traced := Bit(s, fs, f, i)))
    }

    // Every bit is what a re-scan would make it.
    predicate InSync(s: Settings, fs: seq<Frame>, f: string) {
      forall i :: 0 <= i < |fs| ==> fs[i].traced == Bit(s, fs, f, i)
    }

    // The SUBDIR rule that sets the bit of a frame, if there is one: the rule that matches its function, when
    // depth and process let the rules speak.
    function Rule(s: Settings, level: nat, f: string): Option<bool> {
      RuleOf(Applies(s, process, level, fnmatch), First(s.functions.links, f, fnmatch))
    }

    static function RuleOf(applies: bool, found: Option<Flags>): Option<bool> {
      if applies && found.Some? && found.value.subdir then Some(found.value.included) else None
    }

    // A bit is what its frame's rule says, or what is inherited.
    lemma BitRule(s: Settings, fs: seq<Frame>, f: string, i: nat)
      requires i < |fs|
      ensures Bit(s, fs, f, i) == match Rule(s, fs[i].level, Own(fs, f, i))
                                  case Some(included) => included
                                  case None => if i == 0 then Default(s) else Bit(s, fs, f, i - 1)
    {
      VerdictRule(s, fs[i].level, Own(fs, f, i), false);
    }

    lemma VerdictRule(s: Settings, lv: nat, f: string, inherited: bool)
      ensures Decide(s, process, lv, f, fnmatch, inherited) == EnableTrace <==> Rule(s, lv, f) == Some(true)
      ensures Decide(s, process, lv, f, fnmatch, inherited) == DisableTrace <==> Rule(s, lv, f) == Some(false)
    {
      InListFirst(s.functions.links, f, fnmatch);
    }

    lemma NoRule(s: Settings, level: nat, f: string)
      requires !Subdir(s)
      ensures Rule(s, level, f) == None
    {
    }

    // Without a SUBDIR rule a re-scan gives every frame the default.
    lemma {:induction false} BitDefault(s: Settings, fs: seq<Frame>, f: string, i: nat)
      requires !Subdir(s) && i < |fs|
      ensures Bit(s, fs, f, i) == Default(s)
    {
      hide Rule, Default, Subdir, Bit;
      BitRule(s, fs, f, i);
      NoRule(s, fs[i].level, Own(fs, f, i));
      if i > 0 { BitDefault(s, fs, f, i - 1); }
    }

    lemma RescannedDefault(s: Settings, fs: seq<Frame>, f: string)
      requires !Subdir(s)
      ensures forall i :: 0 <= i < |fs| ==> Bit(s, fs, f, i) == Default(s)
    {
      forall i | 0 <= i < |fs| ensures Bit(s, fs, f, i) == Default(s) { BitDefault(s, fs, f, i); }
    }

    // A bit depends on levels and functions, not on the bits already there.
    lemma {:induction false} BitSame(s: Settings, fs: seq<Frame>, gs: seq<Frame>, f: string, i: nat)
      requires |fs| == |gs| && i < |fs|
      requires forall k :: 0 <= k < |fs| ==> gs[k].level == fs[k].level && gs[k].func == fs[k].func
      ensures Bit(s, gs, f, i) == Bit(s, fs, f, i)
    {
      hide Decide, Default;
      if i > 0 { BitSame(s, fs, gs, f, i - 1); }
    }

    // Nor does it depend on the frames inside it, beyond the name of the next function.
    lemma {:induction false} BitPrefix(s: Settings, fs: seq<Frame>, f: string, i: nat)
      requires fs != [] && i < |fs| - 1
      ensures Bit(s, fs[..|fs| - 1], fs[|fs| - 1].func, i) == Bit(s, fs, f, i)
    {
      hide Decide, Default;
      if i > 0 { BitPrefix(s, fs, f, i - 1); }
    }

    constructor (process: string, global: Settings, fnmatch: Pattern)
      requires DbugExplain.GoodSettings(global) && global.out != Unset
      ensures Valid() && this.global == global && this.process == process && this.fnmatch == fnmatch
      ensures frames == [] && stack == [] && level == 0
    {
      this.fnmatch := fnmatch;
      this.process := process;
      this.global := global;
      func := "?func";
      level := 0;
      frames := [];
      stack := [];
    }

    // ---------- FixTraceFlags ----------

    /** FixTraceFlags_helper on the frames up to n: the outer ones first, clobbering func and level. */
    method FixHelper(f: string, n: nat)
      requires n < |frames|
      modifies this`frames, this`func, this`level
      ensures |frames| == |old(frames)|
      ensures forall i :: 0 <= i <= n ==> frames[i] == old(frames)[i].(traced := Bit(Top(), old(frames)[..n + 1], f, i))
      ensures forall i :: n < i < |frames| ==> frames[i] == old(frames)[i]
      decreases n
    {
      hide Decide;
      ghost var was := old(frames)[..n + 1];
      if n > 0 {
        FixHelper(frames[n].func, n - 1);
        assert was[..n] == old(frames)[..n];
        forall i | 0 <= i < n ensures Bit(Top(), was[..n], was[n].func, i) == Bit(Top(), was, f, i) {
          BitPrefix(Top(), was, f, i);
        }
      }
      VerdictRule(Top(), frames[n].level, f, frames[|frames| - 1].traced);
      VerdictRule(Top(), frames[n].level, f, false);
      func := f;
      level := frames[n].level;
      var inherited := if n > 0 then frames[n - 1].traced else Default(Top());
      var verdict := Decide(Top(), process, level, func, fnmatch, frames[|frames| - 1].traced);
      var traced := if verdict == EnableTrace then true else if verdict == DisableTrace then false else inherited;
      frames := frames[n := frames[n].(traced := traced)];
    }

    static predicate Unchanged(old_: Flags, new_: Settings) {
      !old_.subdir && !Subdir(new_) && old_.included == !Default(new_)
    }

    /** FixTraceFlags.  Every exit but the third check's leaves exactly what the full re-scan would; that one
        leaves the frames as they are. */
    method FixTraceFlags(oldFlags: Flags)
      modifies this
      ensures func == old(func) && level == old(level) && stack == old(stack)
      ensures frames == if Unchanged(oldFlags, Top()) then old(frames) else Rescanned(Top(), old(frames), func)
    {
      var s := Top();
      var n := |frames|;
      if n == 0 { return; }
      var newFlags := ListFlags(s.functions.links);
      if !newFlags.subdir {
        RescannedDefault(s, frames, func);
        if !oldFlags.subdir && newFlags.included == oldFlags.included { return; }
        var traceon := frames[n - 1].traced;
        var i := n;
        while i > 0 && frames[i - 1].traced == traceon
          invariant 0 <= i <= n
          invariant forall k :: i <= k < n ==> frames[k].traced == traceon
        {
          i := i - 1;
        }
        if i == 0 && traceon == !newFlags.included {
          assert forall k :: 0 <= k < n ==> frames[k] == frames[k].(traced := Bit(s, frames, func, k));
          return;
        }
      }
      var f, l := func, level;
      assert frames[..n] == frames;
      FixHelper(f, n - 1);
      func := f;
      level := l;
    }

    /** When the third check lets FixTraceFlags return, the frames are what a re-scan would make them if and
        only if every bit has the default.  A thread that works on the global settings can see the list
        change between two calls, and then its bits may not have it. */
    lemma EarlyExitExact(oldFlags: Flags, s: Settings, fs: seq<Frame>, f: string)
      requires Unchanged(oldFlags, s)
      ensures fs == Rescanned(s, fs, f) <==> forall i :: 0 <= i < |fs| ==> fs[i].traced == Default(s)
    {
      RescannedDefault(s, fs, f);
      var gs := Rescanned(s, fs, f);
      if fs == gs {
        forall i | 0 <= i < |fs| ensures fs[i].traced == Default(s) { assert fs[i] == gs[i]; }
      } else {
        var i :| 0 <= i < |fs| && fs[i] != gs[i];
      }
    }

    /** Without a SUBDIR rule the frames are always in sync. */
    lemma SettledInSync(s: Settings, fs: seq<Frame>, f: string)
      requires Settled(fs, s) && !Subdir(s)
      ensures InSync(s, fs, f)
    {
      RescannedDefault(s, fs, f);
    }

    // ---------- without a re-scan ----------

    // What frame i inherits from the one outside it.
    static function Outer(s: Settings, fs: seq<Frame>, i: nat): bool
      requires i < |fs|
    {
      if i == 0 then Default(s) else fs[i - 1].traced
    }

    // Two rules give the same bit to a frame: they are the same, or the one there is says what is inherited.
    static predicate SameBit(was: Option<bool>, now: Option<bool>, inherited: bool) {
      was == now || (was == None && now == Some(inherited)) || (now == None && was == Some(inherited))
    }

    /** The frames' bits do not notice the change of settings. */
    ghost predicate Undisturbed(s: Settings, s': Settings, fs: seq<Frame>, f: string) {
      forall i :: 0 <= i < |fs| ==>
        SameBit(Rule(s, fs[i].level, Own(fs, f, i)), Rule(s', fs[i].level, Own(fs, f, i)), Outer(s, fs, i))
    }

    /** Frames that are in sync before a change of settings that keeps the default are in sync after it, with
        no re-scan, if and only if every frame's old and new rule give it the same bit. */
    lemma StaysInSync(s: Settings, s': Settings, fs: seq<Frame>, f: string)
      requires InSync(s, fs, f) && Default(s') == Default(s)
      ensures InSync(s', fs, f) <==> Undisturbed(s, s', fs, f)
    {
      hide Rule, Default, Bit;
      if InSync(s', fs, f) {
        forall i | 0 <= i < |fs|
          ensures SameBit(Rule(s, fs[i].level, Own(fs, f, i)), Rule(s', fs[i].level, Own(fs, f, i)), Outer(s, fs, i))
        {
          BitRule(s, fs, f, i);
          BitRule(s', fs, f, i);
          if i > 0 { assert fs[i - 1].traced == Bit(s, fs, f, i - 1) == Bit(s', fs, f, i - 1); }
        }
      }
      if Undisturbed(s, s', fs, f) {
        forall i | 0 <= i < |fs| ensures fs[i].traced == Bit(s', fs, f, i) { UndisturbedBit(s, s', fs, f, i); }
      }
    }

    lemma {:induction false} UndisturbedBit(s: Settings, s': Settings, fs: seq<Frame>, f: string, i: nat)
      requires InSync(s, fs, f) && Default(s') == Default(s) && Undisturbed(s, s', fs, f) && i < |fs|
      ensures fs[i].traced == Bit(s', fs, f, i)
    {
      hide Rule, Default, Bit;
      BitRule(s, fs, f, i);
      BitRule(s', fs, f, i);
      assert SameBit(Rule(s, fs[i].level, Own(fs, f, i)), Rule(s', fs[i].level, Own(fs, f, i)), Outer(s, fs, i));
      if i > 0 {
        UndisturbedBit(s, s', fs, f, i - 1);
        assert fs[i - 1].traced == Bit(s, fs, f, i - 1);
      }
    }

    // Frame i's function is under a SUBDIR rule.
    predicate Ruled(s: Settings, fs: seq<Frame>, f: string, i: nat)
      requires i < |fs|
    {
      var found := First(s.functions.links, Own(fs, f, i), fnmatch);
      found.Some? && found.value.subdir
    }

    predicate AppliesTo(s: Settings, frame: Frame) { Applies(s, process, frame.level, fnmatch) }

    /** With the same list of functions: whenever depth or process begins or ceases to let a frame's SUBDIR
        rule speak, the rule says what is inherited anyway. */
    lemma SameListUndisturbed(s: Settings, s': Settings, fs: seq<Frame>, f: string)
      requires s'.functions.links == s.functions.links
      ensures Undisturbed(s, s', fs, f) <==>
              forall i :: 0 <= i < |fs| && Ruled(s, fs, f, i) && AppliesTo(s, fs[i]) != AppliesTo(s', fs[i]) ==>
                First(s.functions.links, Own(fs, f, i), fnmatch).value.included == Outer(s, fs, i)
    {
      hide First, Applies;
      if Undisturbed(s, s', fs, f) {
        forall i | 0 <= i < |fs| && Ruled(s, fs, f, i) && AppliesTo(s, fs[i]) != AppliesTo(s', fs[i])
          ensures First(s.functions.links, Own(fs, f, i), fnmatch).value.included == Outer(s, fs, i)
        {
          assert SameBit(Rule(s, fs[i].level, Own(fs, f, i)), Rule(s', fs[i].level, Own(fs, f, i)), Outer(s, fs, i));
        }
      }
    }

    /** With the list reversed: of the first match where the rules spoke before, and the last match where they
        speak now, those with SUBDIR agree with each other, and a lone one with what is inherited. */
    lemma ReversedListUndisturbed(s: Settings, s': Settings, fs: seq<Frame>, f: string)
      requires s'.functions.links == Reversed(s.functions.links)
      ensures Undisturbed(s, s', fs, f) <==>
              forall i :: 0 <= i < |fs| ==>
                SameBit(RuleOf(AppliesTo(s, fs[i]), First(s.functions.links, Own(fs, f, i), fnmatch)),
                        RuleOf(AppliesTo(s', fs[i]), Last(s.functions.links, Own(fs, f, i), fnmatch)),
                        Outer(s, fs, i))
    {
      hide First, Last, Applies, Reversed;
      forall i | 0 <= i < |fs|
        ensures Rule(s', fs[i].level, Own(fs, f, i)) ==
                RuleOf(AppliesTo(s', fs[i]), Last(s.functions.links, Own(fs, f, i), fnmatch))
      {
        FirstReversed(s.functions.links, Own(fs, f, i), fnmatch);
      }
    }

    // f runs at level 2 under the rule "f/".
    predicate InF(s: Settings, fs: seq<Frame>) {
      && First(s.functions.links, "main", fnmatch) == None && First(s.functions.links, "f", fnmatch) == Some(Flags(true, true, false))
      && !Default(s) && fs == [Frame("?func", 1, false), Frame("main", 2, true)]
    }

    lemma InFInSync(s: Settings, fs: seq<Frame>)
      requires InF(s, fs) && AppliesTo(s, fs[1])
      ensures InSync(s, fs, "f")
    {
      hide First, Default, Applies;
      BitRule(s, fs, "f", 0);
      BitRule(s, fs, "f", 1);
    }

    lemma InFStale(s: Settings, s': Settings, fs: seq<Frame>)
      requires InF(s, fs) && AppliesTo(s, fs[1]) && !AppliesTo(s', fs[1]) && s'.functions == s.functions
      ensures !InSync(s', fs, "f")
    {
      InFInSync(s, fs);
      hide First, Applies;
      StaysInSync(s, s', fs, "f");
      SameListUndisturbed(s, s', fs, "f");
      assert Ruled(s, fs, "f", 1);
    }

    /** "+t,1" cuts the depth and leaves a stale bit. */
    lemma DepthLeavesStaleBit(s: Settings, fs: seq<Frame>)
      requires InF(s, fs) && AppliesTo(s, fs[1]) && s.maxdepth == 0
      ensures !UsesF("+t,1") && InSync(s, fs, "f") && !InSync(ApplyField(s, "+t,1", true, Env(2, {})), fs, "f")
    {
      var cut := s.(maxdepth := 1, flags := s.flags + {TraceOn});
      assert ApplyField(s, "+t,1", true, Env(2, {})) == cut by {
        assert Body("+t,1") == "t,1" && Arg("t,1") == "1";
        assert Atoi("1") == Digits("1", 0) == Digits("", 1) == 1;
      }
      InFInSync(s, fs);
      InFStale(s, cut, fs);
    }

    /** "+p,x" takes any other process out and does the same. */
    lemma ProcessLeavesStaleBit(s: Settings, fs: seq<Frame>)
      requires InF(s, fs) && AppliesTo(s, fs[1]) && s.processes == NO_LIST && !fnmatch("x", process)
      ensures !UsesF("+p,x") && InSync(s, fs, "f") && !InSync(ApplyField(s, "+p,x", true, Env(2, {})), fs, "f")
    {
      var x := Link("x", false, true, false);
      var out := s.(processes := List([x], false));
      assert ApplyField(s, "+p,x", true, Env(2, {})) == out by {
        assert Body("+p,x") == "p,x" && Arg("p,x") == "x";
        OneName("x");
        assert AddDelAll([], [("x", false)], Include) == AddDel([], ("x", false), Include) == [x];
      }
      assert InList([x], process, fnmatch) == Unlisted(false, false);
      InFInSync(s, fs);
      InFStale(s, out, fs);
    }

    /** "+n" pushed on the global settings makes a copy of a list in which f is excluded before a pattern
        includes it; the copy is read from the other end. */
    lemma CopyLeavesStaleBit(s: Settings, fs: seq<Frame>)
      requires fnmatch("f", "f") && fnmatch("*", "f")
      requires s == RESET.(functions := List([Link("f", true, false, true), Link("*", true, true, false)], false))
      requires fs == [Frame("main", 1, false)]
      ensures var s' := Parsed(RESET.(out := Unset), s, true, "+n", Env(1, {}));
              !ParseReturns("+n") && InSync(s, fs, "f") && !InSync(s', fs, "f")
    {
      var s' := Parsed(RESET.(out := Unset), s, true, "+n", Env(1, {}));
      PlusN();
      PlusNKeeps(RESET.(out := Unset), s, Env(1, {}));
      BackAndForth(s.functions.links);
      FlagsReversed(s.functions.links);
      hide Parsed, ParseReturns, First, Last, Reversed, ListFlags;
      CopyStale(s, s', fs);
    }

    lemma CopyStale(s: Settings, s': Settings, fs: seq<Frame>)
      requires First(s.functions.links, "f", fnmatch) == Some(Flags(true, false, true))
      requires Last(s.functions.links, "f", fnmatch) == Some(Flags(true, true, false))
      requires s'.functions.links == Reversed(s.functions.links) && !Default(s) && !Default(s')
      requires fs == [Frame("main", 1, false)] && AppliesTo(s, fs[0]) && AppliesTo(s', fs[0])
      ensures InSync(s, fs, "f") && !InSync(s', fs, "f")
    {
      hide First, Last, Reversed, Default, Applies;
      BitRule(s, fs, "f", 0);
      StaysInSync(s, s', fs, "f");
      ReversedListUndisturbed(s, s', fs, "f");
    }

    lemma BackAndForth(list: seq<Link>)
      requires fnmatch("f", "f") && fnmatch("*", "f")
      requires list == [Link("f", true, false, true), Link("*", true, true, false)]
      ensures First(list, "f", fnmatch) == Some(Flags(true, false, true))
      ensures Last(list, "f", fnmatch) == Some(Flags(true, true, false))
      ensures ListFlags(list).included
    {
      assert list[1..] == [list[1]];
      assert Last([list[1]], "f", fnmatch) == Some(FlagsOf(list[1]));
    }

    // ---------- the calls ----------

    /** _db_enter_. */
    method Enter(f: string)
      requires Valid()
      modifies this
      ensures Valid() && stack == old(stack) && func == f && level == old(level) + 1
      ensures |frames| == |old(frames)| + 1 && frames[..|frames| - 1] == old(frames)
      ensures frames[|frames| - 1].func == old(func) && frames[|frames| - 1].level == level
      ensures old(InSync(Top(), frames, func)) ==> InSync(Top(), frames, func)
    {
      hide DbugExplain.GoodSettings, Bit, Subdir, Default;
      ghost var was, before := frames, func;
      var inherited := if frames == [] then Default(Top()) else frames[|frames| - 1].traced;
      level := level + 1;
      var frame := Frame(func, level, inherited);
      func := f;
      match Decide(Top(), process, level, func, fnmatch, inherited) {
        case EnableTrace => frame := frame.(traced := true);
        case DisableTrace => frame := frame.(traced := false);
        case DoTrace =>
        case DontTrace =>
      }
      frames := frames + [frame];
      EnteredOk(Top(), was, before, frame, f);
    }

    // The frame pushed on entering f has the bit a re-scan would give it.
    lemma EnteredOk(s: Settings, was: seq<Frame>, before: string, frame: Frame, f: string)
      requires Settled(was, s) && frame.func == before
      requires var inherited := if was == [] then Default(s) else was[|was| - 1].traced;
               frame.traced == match Decide(s, process, frame.level, f, fnmatch, inherited)
                               case EnableTrace => true
                               case DisableTrace => false
                               case DoTrace => inherited
                               case DontTrace => inherited
      ensures Settled(was + [frame], s)
      ensures InSync(s, was, before) ==> InSync(s, was + [frame], f)
    {
      var fs := was + [frame];
      assert fs[..|fs| - 1] == was;
      forall i | 0 <= i < |was| ensures Bit(s, was, before, i) == Bit(s, fs, f, i) { BitPrefix(s, fs, f, i); }
      VerdictRule(s, frame.level, f, if was == [] then Default(s) else was[|was| - 1].traced);
      VerdictRule(s, frame.level, f, false);
      hide Decide, Rule, Default, Subdir;
      if !Subdir(s) {
        var inherited := if was == [] then Default(s) else was[|was| - 1].traced;
        VerdictRule(s, frame.level, f, inherited);
        NoRule(s, frame.level, f);
      }
    }

    /** _db_return_ from the function entered last. */
    method Return()
      requires Valid() && frames != []
      modifies this
      ensures Valid() && stack == old(stack)
      ensures frames == old(frames)[..|old(frames)| - 1] && func == old(frames)[|old(frames)| - 1].func
      ensures old(InSync(Top(), frames, func)) ==> InSync(Top(), frames, func)
    {
      hide DbugExplain.GoodSettings, Bit, Subdir, Default;
      ghost var was, before := frames, func;
      var frame := frames[|frames| - 1];
      level := if frame.level != 0 then frame.level - 1 else 0;
      func := frame.func;
      frames := frames[..|frames| - 1];
      forall i | 0 <= i < |frames| ensures Bit(Top(), frames, func, i) == Bit(Top(), was, before, i) {
        BitPrefix(Top(), was, before, i);
      }
    }

    lemma RescannedInSync(s: Settings, fs: seq<Frame>, f: string)
      ensures InSync(s, Rescanned(s, fs, f), f) && Settled(Rescanned(s, fs, f), s)
    {
      var gs := Rescanned(s, fs, f);
      forall i | 0 <= i < |fs| ensures Bit(s, gs, f, i) == Bit(s, fs, f, i) { BitSame(s, fs, gs, f, i); }
      if !Subdir(s) { RescannedDefault(s, fs, f); }
    }

    // After FixTraceFlags, from frames that were settled under the old list.
    lemma FixedInSync(old_: Settings, new_: Settings, fs: seq<Frame>, gs: seq<Frame>, f: string)
      requires Settled(fs, old_)
      requires gs == if Unchanged(ListFlags(old_.functions.links), new_) then fs else Rescanned(new_, fs, f)
      ensures InSync(new_, gs, f) && Settled(gs, new_)
      ensures gs == Rescanned(new_, fs, f)
    {
      RescannedInSync(new_, fs, f);
      if Unchanged(ListFlags(old_.functions.links), new_) {
        RescannedDefault(new_, fs, f);
        assert forall k :: 0 <= k < |fs| ==> fs[k] == fs[k].(traced := Bit(new_, fs, f, k));
      }
    }

    lemma SettledSame(fs: seq<Frame>, s: Settings, s': Settings)
      requires Settled(fs, s) && ListFlags(s'.functions.links) == ListFlags(s.functions.links)
      ensures Settled(fs, s')
    {
    }

    /** _db_set_ and _db_push_: parse a control string into the current or into fresh settings.  When the list
        of functions may have changed, every frame ends up exactly as a full re-scan would leave it; when not,
        the frames stay as they are, which is what a re-scan would make of them if and only if they are
        undisturbed.  SameListUndisturbed and ReversedListUndisturbed say when that is. */
    method Control(control: string, push: bool, writable: set<string>) returns (fixed: bool)
      requires Valid()
      modifies this
      ensures Valid() && func == old(func) && level == old(level)
      ensures fixed == ParseReturns(control)
      ensures stack != [] && (fixed ==> frames == Rescanned(Top(), old(frames), func) && InSync(Top(), frames, func))
      ensures !fixed ==> frames == old(frames)
      ensures !fixed && old(InSync(Top(), frames, func)) ==>
                (InSync(Top(), frames, func) <==> Undisturbed(old(Top()), Top(), frames, func))
      ensures !fixed ==> Top().functions.links ==
                         if old(stack) == [] then Reversed(global.functions.links) else old(Top()).functions.links
      ensures var pushed := push || old(stack) == [];
              var top := if pushed then RESET.(out := Unset) else old(stack)[0];
              var below := if pushed then old(stack) else old(stack)[1..];
              var next := if below == [] then global else below[0];
              stack == [Parsed(top, next, below == [], control, Env(old(level), writable))] + below
    {
      hide DbugExplain.GoodSettings, Parsed, InSync, Rescanned, Settled, ParseReturns, Undisturbed, Reversed;
      var was := Top();
      if push || stack == [] {
        stack := [RESET.(out := Unset)] + stack;
      }
      var below := stack[1..];
      var next := if below == [] then global else below[0];
      ghost var top := stack[0];
      var s;
      s, fixed := DbugParse(stack[0], next, below == [], control, Env(level, writable));
      stack := stack[0 := s];
      assert stack == [s] + below;
      DbugExplain.ParsedGood(top, next, below == [], control, Env(level, writable));
      ParsedSet(top, next, below == [], control, Env(level, writable));
      if fixed {
        ghost var fs := frames;
        FixTraceFlags(ListFlags(was.functions.links));
        FixedInSync(was, Top(), fs, frames, func);
      } else {
        NotFixed(top, next, below == [], control, Env(level, writable), frames, func);
      }
    }

    // What a control string without a re-scan does to the frames.
    lemma NotFixed(top: Settings, next: Settings, global: bool, control: string, env: Env, fs: seq<Frame>, f: string)
      requires !ParseReturns(control)
      requires Settled(fs, if top.out == Unset then next else top)
      ensures var was := if top.out == Unset then next else top;
              var now := Parsed(top, next, global, control, env);
              && Settled(fs, now)
              && now.functions.links == (if top.out == Unset && global then Reversed(next.functions.links) else was.functions.links)
              && (InSync(was, fs, f) ==> (InSync(now, fs, f) <==> Undisturbed(was, now, fs, f)))
    {
      var was := if top.out == Unset then next else top;
      var now := Parsed(top, next, global, control, env);
      KeptFunctions(top, next, global, control, env);
      hide Parsed, ParseReturns, InSync, Undisturbed, Reversed, ListFlags;
      SettledSame(fs, was, now);
      if InSync(was, fs, f) { StaysInSync(was, now, fs, f); }
    }

    /** _db_pop_. */
    method Pop()
      requires Valid()
      modifies this
      ensures Valid() && func == old(func) && level == old(level)
      ensures stack == if old(stack) == [] then [] else old(stack)[1..]
      ensures old(stack) == [] ==> frames == old(frames)
      ensures old(stack) != [] ==> frames == Rescanned(Top(), old(frames), func) && InSync(Top(), frames, func)
    {
      if stack != [] {
        ghost var was, fs := Top(), frames;
        var flags := ListFlags(stack[0].functions.links);
        stack := stack[1..];
        FixTraceFlags(flags);
        FixedInSync(was, Top(), fs, frames, func);
      }
    }
  }

  // ---------- what parsing does to the list of functions ----------

  lemma {:induction false} FoldKeepsFunctions(s: Settings, fields: seq<string>, rel: bool, env: Env)
    requires forall f :: f in fields ==> !UsesF(f)
    ensures Fold(s, fields, rel, env).functions == s.functions
    decreases |fields|
  {
    if fields != [] {
      ApplyKeepsFunctions(s, fields[0], rel, env);
      FoldKeepsFunctions(ApplyField(s, fields[0], rel, env), fields[1..], rel, env);
    }
  }

  lemma ApplyKeepsFunctions(s: Settings, field: string, rel: bool, env: Env)
    requires !UsesF(field)
    ensures ApplyField(s, field, rel, env).functions == s.functions
  {
  }

  lemma PlusN()
    ensures FieldsFrom(Stripped("+n"), 0) == ["+n"] && Relative("+n") && !UsesF("+n") && !ParseReturns("+n")
  {
    assert FieldEnd("+n", 0) == 2;
    assert "+n"[0..2] == "+n";
    assert Body("+n") == "n";
  }

  lemma PlusNKeeps(top: Settings, next: Settings, env: Env)
    requires top.out == Unset
    ensures Parsed(top, next, true, "+n", env) == Switch(Inherited(next, true), DepthOn, true)
  {
    PlusN();
    var s := Inherited(next, true);
    assert Body("+n") == "n" && ApplyField(s, "+n", true, env) == Switch(s, DepthOn, true);
    assert Fold(s, ["+n"], true, env) == Fold(ApplyField(s, "+n", true, env), [], true, env) by { assert ["+n"][1..] == []; }
  }

  // A relative control string that does not name f leaves the rules as they were, in some order.
  lemma KeptFunctions(top: Settings, next: Settings, global: bool, control: string, env: Env)
    requires !ParseReturns(control)
    ensures var from := if top.out == Unset then next else top;
            var r := Parsed(top, next, global, control, env);
            && ListFlags(r.functions.links) == ListFlags(from.functions.links)
            && r.functions.links == if top.out == Unset && global then Reversed(next.functions.links) else from.functions.links
  {
    var from := if top.out == Unset then next else top;
    FoldKeepsFunctions(Start(top, next, global, true), FieldsFrom(Stripped(control), 0), true, env);
    FlagsReversed(from.functions.links);
  }

  lemma FlagsReversed(list: seq<Link>)
    ensures ListFlags(Reversed(list)) == ListFlags(list)
  {
    var r := Reversed(list);
    forall k | 0 <= k < |list| ensures list[k] == r[|list| - 1 - k] {}
  }

  // Parsing always leaves an output stream.
  lemma {:induction false} FoldSet(s: Settings, fields: seq<string>, rel: bool, env: Env)
    requires s.out != Unset
    ensures Fold(s, fields, rel, env).out != Unset
    decreases |fields|
  {
    if fields != [] {
      ApplySet(s, fields[0], rel, env);
      FoldSet(ApplyField(s, fields[0], rel, env), fields[1..], rel, env);
    }
  }

  lemma ApplySet(s: Settings, field: string, rel: bool, env: Env)
    requires s.out != Unset
    ensures ApplyField(s, field, rel, env).out != Unset
  {
  }

  lemma ParsedSet(top: Settings, next: Settings, global: bool, control: string, env: Env)
    requires next.out != Unset
    ensures Parsed(top, next, global, control, env).out != Unset
  {
    var rel := Relative(control);
    FoldSet(Start(top, next, global, rel), FieldsFrom(Stripped(control), 0), rel, env);
  }
}
