/** The checker for the names of unit tests: `test_<number>_<description>`, with numbers
    that strictly increase within each class or module scope. */
module TestNaming {
  import opened AcmeTables

  /** A line of a test file as its two patterns see it. */
  datatype Line =
    | ClassLine(indent: nat, name: string)
    | TestLine(indent: nat, name: string)
    | Other

  type Scope = (string, nat)

  const MODULE_SCOPE: Scope := ("__module__", 1)

  datatype Error =
    | Duplicate(line: nat)
    | InvalidName(line: nat)
    | NonIncreasing(line: nat, number: nat, previous: nat)

  // ---------- the number in a test name ----------

  predicate IsDigit(ch: char) {
    '0' <= ch <= '9'
  }

  function DigitRun(s: string): nat
    ensures DigitRun(s) <= |s|
  {
    if s != "" && IsDigit(s[0]) then 1 + DigitRun(s[1..]) else 0
  }

  function Value(digits: string): nat {
    if digits == "" then 0
    else
      var ch := digits[|digits| - 1];
      10 * Value(digits[..|digits| - 1]) + (if IsDigit(ch) then ch as nat - '0' as nat else 0)
  }

  /** None unless the name is `test_`, digits, an underscore and something more. */
  function NumberOf(name: string): Option<nat> {
    if !("test_" <= name) then None
    else
      var rest := name[5..];
      var n := DigitRun(rest);
      if n > 0 && n + 1 < |rest| && rest[n] == '_' then Some(Value(rest[..n])) else None
  }

  /** How numbers are read off test names. The checker reads them with NumberOf. */
  type Numbering = string -> Option<nat>

  // ---------- scopes ----------

  predicate ClassLines(lines: seq<Line>, open: seq<nat>, n: nat) {
    n <= |lines| && forall k | 0 <= k < |open| :: open[k] < n && lines[open[k]].ClassLine?
  }

  /** What is left of a stack of class lines when a line of this indent comes. */
  function Popped(lines: seq<Line>, open: seq<nat>, indent: nat): (left: seq<nat>)
    requires ClassLines(lines, open, |lines|)
    ensures left <= open
  {
    if open != [] && lines[open[|open| - 1]].indent >= indent then Popped(lines, open[..|open| - 1], indent)
    else open
  }

  /** The stack after the first n lines. */
  function Open(lines: seq<Line>, n: nat): (open: seq<nat>)
    requires n <= |lines|
    ensures ClassLines(lines, open, n)
  {
    if n == 0 then []
    else
      var before, line := Open(lines, n - 1), lines[n - 1];
      match line
      case Other => before
      case ClassLine(indent, _) => Popped(lines, before, indent) + [n - 1]
      case TestLine(indent, _) => Popped(lines, before, indent)
  }

  /** The stack that a test line finds after popping. */
  function Around(lines: seq<Line>, i: nat): (open: seq<nat>)
    requires i < |lines| && lines[i].TestLine?
    ensures ClassLines(lines, open, i)
  {
    Popped(lines, Open(lines, i), lines[i].indent)
  }

  /** The class line whose scope a test is in; None for the module. */
  function ScopeLine(lines: seq<Line>, i: nat): Option<nat>
    requires i < |lines| && lines[i].TestLine?
  {
    var open := Around(lines, i);
    if open == [] then None else Some(open[|open| - 1])
  }

  function ClassCount(lines: seq<Line>, n: nat, name: string): nat
    requires n <= |lines|
  {
    if n == 0 then 0
    else ClassCount(lines, n - 1, name) + (if lines[n - 1].ClassLine? && lines[n - 1].name == name then 1 else 0)
  }

  /** Classes of the same name are told apart by a running number. */
  function ScopeOfClass(lines: seq<Line>, j: nat): Scope
    requires j < |lines| && lines[j].ClassLine?
  {
    (lines[j].name, ClassCount(lines, j + 1, lines[j].name))
  }

  /** The scope under which the checker files a test. */
  function ScopeOf(lines: seq<Line>, i: nat): Scope
    requires i < |lines| && lines[i].TestLine?
  {
    var s := ScopeLine(lines, i);
    if s.None? then MODULE_SCOPE
    else
      assert s.value == Around(lines, i)[|Around(lines, i)| - 1];
      ScopeOfClass(lines, s.value)
  }

  // ---------- the errors a file gets ----------

  predicate InScope(lines: seq<Line>, i: nat, scope: Scope) {
    i < |lines| && lines[i].TestLine? && ScopeOf(lines, i) == scope
  }

  /** A test of this name is among the first n lines of a scope. */
  predicate NameSeen(lines: seq<Line>, n: nat, scope: Scope, name: string)
    requires n <= |lines|
  {
    n > 0 && (NameSeen(lines, n - 1, scope, name) || (InScope(lines, n - 1, scope) && lines[n - 1].name == name))
  }

  /** The last number in a scope among the first n lines. */
  function LastNumber(num: Numbering, lines: seq<Line>, n: nat, scope: Scope): Option<nat>
    requires n <= |lines|
  {
    if n == 0 then None
    else if InScope(lines, n - 1, scope) && num(lines[n - 1].name).Some? then num(lines[n - 1].name)
    else LastNumber(num, lines, n - 1, scope)
  }

  function DuplicateErrors(lines: seq<Line>, i: nat): seq<Error>
    requires i < |lines| && lines[i].TestLine?
  {
    if NameSeen(lines, i, ScopeOf(lines, i), lines[i].name) then [Duplicate(i)] else []
  }

  function SequenceErrors(num: Numbering, lines: seq<Line>, i: nat): seq<Error>
    requires i < |lines| && lines[i].TestLine?
  {
    var number, last := num(lines[i].name), LastNumber(num, lines, i, ScopeOf(lines, i));
    if number.None? then [InvalidName(i)]
    else if last.Some? && number.value <= last.value then [NonIncreasing(i, number.value, last.value)]
    else []
  }

  function Errors(num: Numbering, lines: seq<Line>, n: nat): seq<Error>
    requires n <= |lines|
  {
    if n == 0 then []
    else Errors(num, lines, n - 1)
         + (if lines[n - 1].TestLine? then DuplicateErrors(lines, n - 1) + SequenceErrors(num, lines, n - 1) else [])
  }

  // ---------- the checker as the code runs it ----------

  datatype Entry = Entry(indent: nat, name: string, index: nat)

  function EntryOf(lines: seq<Line>, j: nat): Entry
    requires j < |lines| && lines[j].ClassLine?
  {
    Entry(lines[j].indent, lines[j].name, ScopeOfClass(lines, j).1)
  }

  function Entries(lines: seq<Line>, open: seq<nat>): (stack: seq<Entry>)
    requires ClassLines(lines, open, |lines|)
    ensures |stack| == |open|
    ensures forall k | 0 <= k < |open| :: stack[k] == EntryOf(lines, open[k])
  {
    seq(|open|, k requires 0 <= k < |open| => EntryOf(lines, open[k]))
  }

  predicate Holds(seen: map<Scope, set<string>>, scope: Scope, name: string) {
    scope in seen && name in seen[scope]
  }

  ghost predicate KnowsNames(lines: seq<Line>, n: nat, seen: map<Scope, set<string>>)
    requires n <= |lines|
  {
    forall scope: Scope, name: string :: NameSeen(lines, n, scope, name) == Holds(seen, scope, name)
  }

  /** A class line goes on top of what it leaves of the stack. */
  lemma ClassIsOpened(lines: seq<Line>, i: nat)
    requires i < |lines| && lines[i].ClassLine?
    ensures var left := Popped(lines, Open(lines, i), lines[i].indent);
            && ClassLines(lines, left, |lines|)
            && Open(lines, i + 1) == left + [i]
            && Entries(lines, Open(lines, i + 1)) == Entries(lines, left) + [EntryOf(lines, i)]
  {
  }

  lemma NamesStep(lines: seq<Line>, i: nat, seen: map<Scope, set<string>>, names: set<string>)
    requires i < |lines| && lines[i].TestLine? && KnowsNames(lines, i, seen)
    requires names == if ScopeOf(lines, i) in seen then seen[ScopeOf(lines, i)] else {}
    ensures KnowsNames(lines, i + 1, seen[ScopeOf(lines, i) := names + {lines[i].name}])
  {
    var next := seen[ScopeOf(lines, i) := names + {lines[i].name}];
    forall scope: Scope, name: string ensures NameSeen(lines, i + 1, scope, name) == Holds(next, scope, name) {
      assert NameSeen(lines, i, scope, name) == Holds(seen, scope, name);
    }
  }

  lemma NotATest(num: Numbering, lines: seq<Line>, i: nat, seen: map<Scope, set<string>>)
    requires i < |lines|
    ensures !lines[i].TestLine? && KnowsNames(lines, i, seen) ==> KnowsNames(lines, i + 1, seen)
    ensures !lines[i].TestLine? ==>
              forall scope :: LastNumber(num, lines, i + 1, scope) == LastNumber(num, lines, i, scope)
  {
  }

  class Checker {
    const num: Numbering
    var classStack: seq<Entry>
    var instances: map<string, nat>
    var previous: map<Scope, nat>
    var seen: map<Scope, set<string>>
    var errors: seq<Error>

    constructor ()
      ensures num == NumberOf
      ensures classStack == [] && instances == map[] && previous == map[] && seen == map[] && errors == []
    {
      num := NumberOf;
      classStack, instances, previous, seen, errors := [], map[], map[], map[], [];
    }

    ghost predicate Counts(lines: seq<Line>, n: nat)
      requires n <= |lines|
      reads this`instances
    {
      forall name :: ClassCount(lines, n, name) == if name in instances then instances[name] else 0
    }

    ghost predicate KnowsNumbers(lines: seq<Line>, n: nat)
      requires n <= |lines|
      reads this`previous
    {
      forall scope: Scope ::
        LastNumber(num, lines, n, scope) == if scope in previous then Some(previous[scope]) else None
    }

    method PopClassStack(indent: nat, ghost lines: seq<Line>, ghost open: seq<nat>)
      requires ClassLines(lines, open, |lines|) && classStack == Entries(lines, open)
      modifies this`classStack
      ensures classStack == Entries(lines, Popped(lines, open, indent))
    {
      ghost var left := open;
      while classStack != [] && classStack[|classStack| - 1].indent >= indent
        invariant ClassLines(lines, left, |lines|) && classStack == Entries(lines, left)
        invariant Popped(lines, left, indent) == Popped(lines, open, indent)
        decreases |classStack|
      {
        classStack := classStack[..|classStack| - 1];
        left := left[..|left| - 1];
      }
    }

    method RegisterClassScope(ghost lines: seq<Line>, i: nat, line: Line)
      requires i < |lines| && line == lines[i] && line.ClassLine?
      requires classStack == Entries(lines, Open(lines, i)) && Counts(lines, i)
      modifies this`classStack, this`instances
      ensures classStack == Entries(lines, Open(lines, i + 1)) && Counts(lines, i + 1)
    {
      PopClassStack(line.indent, lines, Open(lines, i));
      var index := (if line.name in instances then instances[line.name] else 0) + 1;
      instances := instances[line.name := index];
      classStack := classStack + [Entry(line.indent, line.name, index)];
      ClassIsOpened(lines, i);
      assert EntryOf(lines, i) == Entry(line.indent, line.name, index);
    }

    method ResolveScope(ghost lines: seq<Line>, ghost i: nat) returns (scope: Scope)
      requires i < |lines| && lines[i].TestLine? && classStack == Entries(lines, Around(lines, i))
      ensures scope == ScopeOf(lines, i)
    {
      if classStack != [] {
        var top := classStack[|classStack| - 1];
        scope := (top.name, top.index);
      } else {
        scope := MODULE_SCOPE;
      }
    }

    method CheckDuplicateTestName(ghost lines: seq<Line>, i: nat, name: string, scope: Scope)
      requires i < |lines| && lines[i].TestLine? && lines[i].name == name && scope == ScopeOf(lines, i)
      requires KnowsNames(lines, i, seen)
      modifies this`seen, this`errors
      ensures errors == old(errors) + DuplicateErrors(lines, i)
      ensures KnowsNames(lines, i + 1, seen)
    {
      var names := if scope in seen then seen[scope] else {};
      if name in names {
        errors := errors + [Duplicate(i)];
      }
      NamesStep(lines, i, seen, names);
      seen := seen[scope := names + {name}];
    }

    method CheckTestSequence(ghost lines: seq<Line>, i: nat, name: string, scope: Scope)
      requires i < |lines| && lines[i].TestLine? && lines[i].name == name && scope == ScopeOf(lines, i)
      requires KnowsNumbers(lines, i)
      modifies this`previous, this`errors
      ensures errors == old(errors) + SequenceErrors(num, lines, i)
      ensures KnowsNumbers(lines, i + 1)
    {
      var number := num(name);
      if number.None? {
        errors := errors + [InvalidName(i)];
        return;
      }
      if scope in previous && number.value <= previous[scope] {
        errors := errors + [NonIncreasing(i, number.value, previous[scope])];
      }
      previous := previous[scope := number.value];
    }

    /** What the checker holds after n lines. */
    ghost predicate Tracks(lines: seq<Line>, n: nat)
      requires n <= |lines|
      reads this
    {
      && classStack == Entries(lines, Open(lines, n)) && Counts(lines, n)
      && KnowsNames(lines, n, seen) && KnowsNumbers(lines, n)
      && errors == Errors(num, lines, n)
    }

    method CheckTest(ghost lines: seq<Line>, i: nat, line: Line)
      requires i < |lines| && line == lines[i] && line.TestLine? && Tracks(lines, i)
      modifies this
      ensures Tracks(lines, i + 1)
    {
      PopClassStack(line.indent, lines, Open(lines, i));
      var scope := ResolveScope(lines, i);
      CheckDuplicateTestName(lines, i, line.name, scope);
      CheckTestSequence(lines, i, line.name, scope);
    }

    method CheckClass(ghost lines: seq<Line>, i: nat, line: Line)
      requires i < |lines| && line == lines[i] && line.ClassLine? && Tracks(lines, i)
      modifies this
      ensures Tracks(lines, i + 1)
    {
      NotATest(num, lines, i, seen);
      RegisterClassScope(lines, i, line);
    }

    method CheckFile(lines: seq<Line>) returns (found: seq<Error>)
      modifies this
      ensures found == Errors(num, lines, |lines|)
    {
      classStack, instances, previous, seen, errors := [], map[], map[], map[], [];
      var i := 0;
      while i < |lines|
        invariant i <= |lines| && Tracks(lines, i)
      {
        if lines[i].ClassLine? {
          CheckClass(lines, i, lines[i]);
        } else if lines[i].TestLine? {
          CheckTest(lines, i, lines[i]);
        } else {
          NotATest(num, lines, i, seen);
        }
        i := i + 1;
      }
      found := errors;
    }
  }

  lemma {:induction false} NameSeenMeans(lines: seq<Line>, n: nat, scope: Scope, name: string)
    requires n <= |lines|
    ensures NameSeen(lines, n, scope, name) <==>
              exists k :: 0 <= k < n && InScope(lines, k, scope) && lines[k].name == name
  {
    if n > 0 {
      NameSeenMeans(lines, n - 1, scope, name);
    }
  }

  // ---------- the stack holds the classes that are still open ----------

  /** Class line j is not closed before line n: every class or test line in between is
      indented deeper. */
  predicate StillOpen(lines: seq<Line>, j: nat, n: nat) {
    && j < n <= |lines| && lines[j].ClassLine?
    && forall k | j < k < n && !lines[k].Other? :: lines[k].indent > lines[j].indent
  }

  predicate Rising(lines: seq<Line>, open: seq<nat>)
    requires ClassLines(lines, open, |lines|)
  {
    forall a, b | 0 <= a < b < |open| :: open[a] < open[b] && lines[open[a]].indent < lines[open[b]].indent
  }

  lemma {:induction false} PoppedKeeps(lines: seq<Line>, open: seq<nat>, indent: nat)
    requires ClassLines(lines, open, |lines|) && Rising(lines, open)
    ensures var left := Popped(lines, open, indent);
            && Rising(lines, left)
            && (forall j :: j in left <==> j in open && lines[j].indent < indent)
  {
    if open != [] {
      var init, top := open[..|open| - 1], open[|open| - 1];
      assert open == init + [top];
      if lines[top].indent >= indent {
        PoppedKeeps(lines, init, indent);
      } else {
        forall j | j in open ensures lines[j].indent < indent {
          var a :| 0 <= a < |open| && open[a] == j;
        }
      }
    }
  }

  lemma StillOpenStep(lines: seq<Line>, j: nat, n: nat)
    requires 0 < n <= |lines|
    ensures StillOpen(lines, j, n) <==>
              || (j == n - 1 && lines[j].ClassLine?)
              || (StillOpen(lines, j, n - 1) && (lines[n - 1].Other? || lines[n - 1].indent > lines[j].indent))
  {
  }

  lemma OpenStep(lines: seq<Line>, n: nat, before: seq<nat>, j: nat)
    requires 0 < n <= |lines| && before == Open(lines, n - 1) && Rising(lines, before)
    requires j in before <==> StillOpen(lines, j, n - 1)
    ensures j in Open(lines, n) <==> StillOpen(lines, j, n)
  {
    StillOpenStep(lines, j, n);
    if !lines[n - 1].Other? {
      PoppedKeeps(lines, before, lines[n - 1].indent);
    }
  }

  lemma RisingPush(lines: seq<Line>, left: seq<nat>, top: nat)
    requires ClassLines(lines, left, top) && top < |lines| && lines[top].ClassLine? && Rising(lines, left)
    requires forall j | j in left :: lines[j].indent < lines[top].indent
    ensures Rising(lines, left + [top])
  {
    forall a | 0 <= a < |left| ensures left[a] < top && lines[left[a]].indent < lines[top].indent {
      assert left[a] in left;
    }
  }

  lemma OpenRises(lines: seq<Line>, n: nat)
    requires 0 < n <= |lines| && Rising(lines, Open(lines, n - 1))
    ensures Rising(lines, Open(lines, n))
  {
    var before, line := Open(lines, n - 1), lines[n - 1];
    if !line.Other? {
      PoppedKeeps(lines, before, line.indent);
    }
    if line.ClassLine? {
      RisingPush(lines, Popped(lines, before, line.indent), n - 1);
    }
  }

  /** After any number of lines the stack holds exactly the classes that are still open,
      in the order of the file, with strictly increasing indents. */
  lemma {:induction false} StackIsWhatIsOpen(lines: seq<Line>, n: nat)
    requires n <= |lines|
    ensures Rising(lines, Open(lines, n))
    ensures forall j: nat :: j in Open(lines, n) <==> StillOpen(lines, j, n)
  {
    if n > 0 {
      StackIsWhatIsOpen(lines, n - 1);
      OpenRises(lines, n);
      forall j: nat ensures j in Open(lines, n) <==> StillOpen(lines, j, n) {
        OpenStep(lines, n, Open(lines, n - 1), j);
      }
    }
  }

  /** A test belongs to the innermost class above it that is still open and less indented
      than the test, and to the module when there is none. */
  lemma ScopeIsInnermost(lines: seq<Line>, i: nat)
    requires i < |lines| && lines[i].TestLine?
    ensures match ScopeLine(lines, i)
            case None => forall j: nat :: !(StillOpen(lines, j, i) && lines[j].indent < lines[i].indent)
            case Some(top) =>
              && StillOpen(lines, top, i) && lines[top].indent < lines[i].indent
              && forall j: nat | StillOpen(lines, j, i) && lines[j].indent < lines[i].indent && j != top ::
                   j < top && lines[j].indent < lines[top].indent
  {
    StackIsWhatIsOpen(lines, i);
    PoppedKeeps(lines, Open(lines, i), lines[i].indent);
    var open := Around(lines, i);
    forall j: nat | StillOpen(lines, j, i) && lines[j].indent < lines[i].indent
      ensures exists a :: 0 <= a < |open| && open[a] == j
    {
      assert j in open;
    }
    if open != [] {
      assert open[|open| - 1] in open;
    }
  }

  // ---------- scopes and the keys they are filed under ----------

  lemma {:induction false} CountGrows(lines: seq<Line>, m: nat, n: nat, name: string)
    requires m <= n <= |lines|
    ensures ClassCount(lines, m, name) <= ClassCount(lines, n, name)
  {
    if m < n {
      CountGrows(lines, m, n - 1, name);
    }
  }

  lemma ScopesOfClassesDiffer(lines: seq<Line>, i: nat, j: nat)
    requires i < |lines| && j < |lines| && lines[i].ClassLine? && lines[j].ClassLine?
    ensures ScopeOfClass(lines, i) == ScopeOfClass(lines, j) <==> i == j
  {
    if i < j {
      CountGrows(lines, i + 1, j, lines[j].name);
    } else if j < i {
      CountGrows(lines, j + 1, i, lines[i].name);
    }
  }

  /** The first class that is itself called `__module__` is filed under the module's key. */
  predicate TakesModuleKey(lines: seq<Line>, s: Option<nat>) {
    s.Some? && s.value < |lines| && lines[s.value].ClassLine? && ScopeOfClass(lines, s.value) == MODULE_SCOPE
  }

  /** Two tests are filed under one key exactly when they share their scope, or one is at
      module level and the other in the first class named `__module__`. */
  lemma KeysTellScopes(lines: seq<Line>, i: nat, j: nat)
    requires i < |lines| && j < |lines| && lines[i].TestLine? && lines[j].TestLine?
    ensures ScopeOf(lines, i) == ScopeOf(lines, j) <==>
              || ScopeLine(lines, i) == ScopeLine(lines, j)
              || (ScopeLine(lines, i).None? && TakesModuleKey(lines, ScopeLine(lines, j)))
              || (ScopeLine(lines, j).None? && TakesModuleKey(lines, ScopeLine(lines, i)))
  {
    var a, b := ScopeLine(lines, i), ScopeLine(lines, j);
    if a.Some? && b.Some? {
      assert a.value == Around(lines, i)[|Around(lines, i)| - 1];
      assert b.value == Around(lines, j)[|Around(lines, j)| - 1];
      ScopesOfClassesDiffer(lines, a.value, b.value);
    }
  }

  // ---------- no error exactly for a well-numbered file ----------

  predicate WellNumbered(num: Numbering, lines: seq<Line>, n: nat)
    requires n <= |lines|
  {
    && (forall i | 0 <= i < n && lines[i].TestLine? :: num(lines[i].name).Some?)
    && forall i, j | 0 <= i < j < n && lines[i].TestLine? && lines[j].TestLine?
         && ScopeOf(lines, i) == ScopeOf(lines, j)
         && num(lines[i].name).Some? && num(lines[j].name).Some? ::
         num(lines[i].name).value < num(lines[j].name).value
  }

  lemma WellNumberedBefore(num: Numbering, lines: seq<Line>, n: nat)
    requires n < |lines|
    ensures WellNumbered(num, lines, n + 1) ==> WellNumbered(num, lines, n)
    ensures !lines[n].TestLine? && WellNumbered(num, lines, n) ==> WellNumbered(num, lines, n + 1)
  {
  }

  /** The last number of a scope is there when the scope has tests, and is its largest. */
  predicate IsLargest(num: Numbering, lines: seq<Line>, n: nat, scope: Scope, last: Option<nat>) {
    && (last.None? ==> forall k | 0 <= k < n :: !InScope(lines, k, scope))
    && (last.Some? ==>
          && (exists k :: 0 <= k < n && InScope(lines, k, scope) && num(lines[k].name) == last)
          && forall k | 0 <= k < n && InScope(lines, k, scope) ::
               num(lines[k].name).Some? && num(lines[k].name).value <= last.value)
  }

  lemma NumberedInOrder(num: Numbering, lines: seq<Line>, i: nat, j: nat, scope: Scope)
    requires i < j < |lines| && WellNumbered(num, lines, j + 1) && InScope(lines, i, scope) && InScope(lines, j, scope)
    ensures num(lines[i].name).Some? && num(lines[j].name).Some?
    ensures num(lines[i].name).value < num(lines[j].name).value
  {
  }

  /** In a well-numbered file the last number of a scope is its largest. */
  lemma {:induction false} LastIsLargest(num: Numbering, lines: seq<Line>, n: nat, scope: Scope)
    requires n <= |lines| && WellNumbered(num, lines, n)
    ensures IsLargest(num, lines, n, scope, LastNumber(num, lines, n, scope))
  {
    if n > 0 {
      WellNumberedBefore(num, lines, n - 1);
      LastIsLargest(num, lines, n - 1, scope);
      if InScope(lines, n - 1, scope) {
        forall k | 0 <= k < n - 1 && InScope(lines, k, scope)
          ensures num(lines[k].name).Some? && num(lines[n - 1].name).Some?
          ensures num(lines[k].name).value < num(lines[n - 1].name).value
        {
          NumberedInOrder(num, lines, k, n - 1, scope);
        }
      }
    }
  }

  /** A test behind a well-numbered part whose number is larger than the last of its scope keeps
      the file well numbered. */
  lemma LargerFits(num: Numbering, lines: seq<Line>, n: nat)
    requires n < |lines| && lines[n].TestLine? && WellNumbered(num, lines, n)
    requires SequenceErrors(num, lines, n) == []
    ensures WellNumbered(num, lines, n + 1)
    ensures forall k | 0 <= k < n && InScope(lines, k, ScopeOf(lines, n)) :: lines[k].name != lines[n].name
  {
    var scope, number := ScopeOf(lines, n), num(lines[n].name);
    LastIsLargest(num, lines, n, scope);
    forall i | 0 <= i < n && lines[i].TestLine? && ScopeOf(lines, i) == scope
      ensures num(lines[i].name).Some? && num(lines[i].name).value < number.value
    {
      assert InScope(lines, i, scope);
    }
  }

  lemma FittingIsLarger(num: Numbering, lines: seq<Line>, n: nat)
    requires n < |lines| && lines[n].TestLine? && WellNumbered(num, lines, n + 1)
    ensures SequenceErrors(num, lines, n) == []
  {
    var scope := ScopeOf(lines, n);
    var number, last := num(lines[n].name), LastNumber(num, lines, n, scope);
    WellNumberedBefore(num, lines, n);
    LastIsLargest(num, lines, n, scope);
    assert number.Some?;
    if last.Some? {
      var k :| 0 <= k < n && InScope(lines, k, scope) && num(lines[k].name) == last;
      assert num(lines[k].name).value < number.value;
    }
  }

  lemma TestFits(num: Numbering, lines: seq<Line>, n: nat)
    requires n < |lines| && lines[n].TestLine? && WellNumbered(num, lines, n)
    ensures DuplicateErrors(lines, n) + SequenceErrors(num, lines, n) == [] <==> WellNumbered(num, lines, n + 1)
  {
    NameSeenMeans(lines, n, ScopeOf(lines, n), lines[n].name);
    if SequenceErrors(num, lines, n) == [] {
      LargerFits(num, lines, n);
    }
    if WellNumbered(num, lines, n + 1) {
      FittingIsLarger(num, lines, n);
    }
  }

  /** The checker reports nothing exactly when every test name has the required form and
      the numbers strictly increase within each scope. */
  lemma {:induction false} NoErrorsExactlyWhenWellNumbered(num: Numbering, lines: seq<Line>, n: nat)
    requires n <= |lines|
    ensures Errors(num, lines, n) == [] <==> WellNumbered(num, lines, n)
  {
    if n > 0 {
      NoErrorsExactlyWhenWellNumbered(num, lines, n - 1);
      WellNumberedBefore(num, lines, n - 1);
      if lines[n - 1].TestLine? && WellNumbered(num, lines, n - 1) {
        TestFits(num, lines, n - 1);
      }
    }
  }

  /** The same, with the scopes that a reader of the file sees. */
  predicate WellNumberedInScopes(num: Numbering, lines: seq<Line>) {
    && (forall i | 0 <= i < |lines| && lines[i].TestLine? :: num(lines[i].name).Some?)
    && forall i, j | 0 <= i < j < |lines| && lines[i].TestLine? && lines[j].TestLine?
         && ScopeLine(lines, i) == ScopeLine(lines, j)
         && num(lines[i].name).Some? && num(lines[j].name).Some? ::
         num(lines[i].name).value < num(lines[j].name).value
  }

  /** One of the two tests is at module level, the other in the first class that is itself
      called `__module__`. */
  predicate Mixed(lines: seq<Line>, i: nat, j: nat)
    requires i < |lines| && j < |lines| && lines[i].TestLine? && lines[j].TestLine?
  {
    || (ScopeLine(lines, i).None? && TakesModuleKey(lines, ScopeLine(lines, j)))
    || (ScopeLine(lines, j).None? && TakesModuleKey(lines, ScopeLine(lines, i)))
  }

  /** Numbers also increase between the tests that the checker mixes up. */
  predicate CrossFits(num: Numbering, lines: seq<Line>) {
    forall i, j | 0 <= i < j < |lines| && lines[i].TestLine? && lines[j].TestLine? && Mixed(lines, i, j)
        && num(lines[i].name).Some? && num(lines[j].name).Some? ::
      num(lines[i].name).value < num(lines[j].name).value
  }

  lemma WellNumberedSplits(num: Numbering, lines: seq<Line>)
    ensures WellNumbered(num, lines, |lines|) <==> WellNumberedInScopes(num, lines) && CrossFits(num, lines)
  {
    forall i, j | 0 <= i < j < |lines| && lines[i].TestLine? && lines[j].TestLine?
      ensures ScopeOf(lines, i) == ScopeOf(lines, j) <==>
                ScopeLine(lines, i) == ScopeLine(lines, j) || Mixed(lines, i, j)
    {
      KeysTellScopes(lines, i, j);
    }
  }

  /** What the checker accepts, in every file: numbers that increase within the scopes a
      reader sees, and across those it mixes up. */
  lemma ErrorsInScopes(num: Numbering, lines: seq<Line>)
    ensures Errors(num, lines, |lines|) == [] <==> WellNumberedInScopes(num, lines) && CrossFits(num, lines)
  {
    NoErrorsExactlyWhenWellNumbered(num, lines, |lines|);
    WellNumberedSplits(num, lines);
  }

  /** The checker is right about a file exactly when the file is badly numbered in its scopes,
      or its numbers also increase across the scopes that are mixed up. */
  lemma WhenTheCheckerIsExact(num: Numbering, lines: seq<Line>)
    ensures (Errors(num, lines, |lines|) == [] <==> WellNumberedInScopes(num, lines))
              <==> (WellNumberedInScopes(num, lines) ==> CrossFits(num, lines))
  {
    ErrorsInScopes(num, lines);
  }

  /** In particular it is exact on every file without a class called `__module__`. */
  lemma CheckerIsExact(num: Numbering, lines: seq<Line>)
    requires forall j | 0 <= j < |lines| && lines[j].ClassLine? :: lines[j].name != MODULE_SCOPE.0
    ensures Errors(num, lines, |lines|) == [] <==> WellNumberedInScopes(num, lines)
  {
    WhenTheCheckerIsExact(num, lines);
  }

  lemma OneLineDuplicates(num: Numbering, lines: seq<Line>, n: nat, i: nat)
    requires n < |lines| && lines[n].TestLine?
    ensures Duplicate(i) in DuplicateErrors(lines, n) + SequenceErrors(num, lines, n) <==>
              i == n && NameSeen(lines, n, ScopeOf(lines, n), lines[n].name)
  {
    assert Duplicate(i) !in SequenceErrors(num, lines, n);
  }

  lemma {:induction false} DuplicatesAreSeen(num: Numbering, lines: seq<Line>, n: nat, i: nat)
    requires n <= |lines|
    ensures Duplicate(i) in Errors(num, lines, n) <==>
              i < n && lines[i].TestLine? && NameSeen(lines, i, ScopeOf(lines, i), lines[i].name)
  {
    if n > 0 {
      DuplicatesAreSeen(num, lines, n - 1, i);
      if lines[n - 1].TestLine? {
        OneLineDuplicates(num, lines, n - 1, i);
      }
    }
  }

  /** A line is reported as a duplicate exactly when it is a test whose name stands on an earlier
      test of its scope. */
  lemma DuplicatesAreReported(num: Numbering, lines: seq<Line>, i: nat)
    ensures Duplicate(i) in Errors(num, lines, |lines|) <==>
              && i < |lines| && lines[i].TestLine?
              && exists k :: 0 <= k < i && lines[k].TestLine? && ScopeOf(lines, k) == ScopeOf(lines, i)
                   && lines[k].name == lines[i].name
  {
    DuplicatesAreSeen(num, lines, |lines|, i);
    if i < |lines| && lines[i].TestLine? {
      NameSeenMeans(lines, i, ScopeOf(lines, i), lines[i].name);
      assert forall k | 0 <= k < i && lines[k].TestLine? && ScopeOf(lines, k) == ScopeOf(lines, i) ::
        InScope(lines, k, ScopeOf(lines, i));
    }
  }

  // ---------- numbers as they are written ----------

  function Decimal(n: nat): (digits: string) {
    if n < 10 then ["0123456789"[n]] else Decimal(n / 10) + ["0123456789"[n % 10]]
  }

  function Zeros(z: nat): (zeros: string)
    ensures |zeros| == z
  {
    seq(z, _ => '0')
  }

  /** `test_`, a number with any leading zeros, an underscore and something more. */
  function TestName(z: nat, n: nat, rest: string): string {
    "test_" + (Zeros(z) + Decimal(n)) + ("_" + rest)
  }

  predicate AllDigits(s: string) {
    forall i | 0 <= i < |s| :: IsDigit(s[i])
  }

  lemma DigitIsRead(d: nat)
    requires d < 10
    ensures IsDigit("0123456789"[d]) && "0123456789"[d] as nat - '0' as nat == d
  {
  }

  lemma LastDigit(init: string, d: char)
    requires IsDigit(d)
    ensures Value(init + [d]) == 10 * Value(init) + (d as nat - '0' as nat)
  {
    assert (init + [d])[..|init|] == init;
  }

  lemma {:induction false} ValueOfZeros(z: nat)
    ensures Value(Zeros(z)) == 0
  {
    if z > 0 {
      assert Zeros(z) == Zeros(z - 1) + ['0'];
      LastDigit(Zeros(z - 1), '0');
      ValueOfZeros(z - 1);
    }
  }

  lemma {:induction false} DecimalIsRead(z: nat, n: nat)
    ensures AllDigits(Zeros(z) + Decimal(n)) && Decimal(n) != ""
    ensures Value(Zeros(z) + Decimal(n)) == n
  {
    DigitIsRead(n % 10);
    if n < 10 {
      LastDigit(Zeros(z), "0123456789"[n]);
      ValueOfZeros(z);
    } else {
      DecimalIsRead(z, n / 10);
      assert Zeros(z) + Decimal(n) == (Zeros(z) + Decimal(n / 10)) + ["0123456789"[n % 10]];
      LastDigit(Zeros(z) + Decimal(n / 10), "0123456789"[n % 10]);
    }
  }

  lemma DecimalOfNext(w: nat, v: nat)
    requires 0 < w && v < 10
    ensures Decimal(10 * w + v) == Decimal(w) + ["0123456789"[v]]
  {
    assert (10 * w + v) / 10 == w && (10 * w + v) % 10 == v;
  }

  /** One more digit makes one more leading zero, or ten times the number. */
  lemma OneMoreDigit(y: nat, w: nat, v: nat) returns (z: nat)
    requires v < 10
    ensures Zeros(y) + Decimal(w) + ["0123456789"[v]] == Zeros(z) + Decimal(10 * w + v)
  {
    if w == 0 {
      z := y + 1;
      assert Decimal(0) == ['0'] && Zeros(z) == Zeros(y) + ['0'];
    } else {
      z := y;
      DecimalOfNext(w, v);
    }
  }

  /** Every run of digits is a number with leading zeros. */
  lemma {:induction false} DigitsAreDecimal(s: string) returns (z: nat)
    requires s != "" && AllDigits(s)
    ensures s == Zeros(z) + Decimal(Value(s))
  {
    var init, d := s[..|s| - 1], s[|s| - 1];
    var v := d as nat - '0' as nat;
    assert s == init + [d] && "0123456789"[v] == d;
    LastDigit(init, d);
    if init == "" {
      z := 0;
    } else {
      var y := DigitsAreDecimal(init);
      z := OneMoreDigit(y, Value(init), v);
    }
  }

  lemma {:induction false} RunOfDigits(digits: string, rest: string)
    requires AllDigits(digits) && (rest == "" || !IsDigit(rest[0]))
    ensures DigitRun(digits + rest) == |digits|
  {
    if digits == "" {
      assert digits + rest == rest;
    } else {
      assert (digits + rest)[1..] == digits[1..] + rest;
      RunOfDigits(digits[1..], rest);
    }
  }

  lemma {:induction false} RunIsDigits(s: string)
    ensures AllDigits(s[..DigitRun(s)])
  {
    if DigitRun(s) > 0 {
      RunIsDigits(s[1..]);
      assert s[..DigitRun(s)] == [s[0]] + s[1..][..DigitRun(s[1..])];
    }
  }

  lemma NumberIsRead(z: nat, n: nat, rest: string)
    requires rest != ""
    ensures NumberOf(TestName(z, n, rest)) == Some(n)
  {
    var digits, name := Zeros(z) + Decimal(n), TestName(z, n, rest);
    DecimalIsRead(z, n);
    RunOfDigits(digits, "_" + rest);
    assert name[5..] == digits + ("_" + rest) && name[5..][..|digits|] == digits;
  }

  lemma NumberWasWritten(name: string, n: nat) returns (z: nat, rest: string)
    requires NumberOf(name) == Some(n)
    ensures rest != "" && name == TestName(z, n, rest)
  {
    var tail := name[5..];
    var k := DigitRun(tail);
    RunIsDigits(tail);
    z := DigitsAreDecimal(tail[..k]);
    rest := tail[k + 1..];
    assert tail[k..] == [tail[k]] + rest && tail == tail[..k] + tail[k..];
    assert name == name[..5] + tail;
  }

  /** The number of a name is the decimal number behind `test_`, and only names of this form
      have one. */
  lemma NumbersAreDecimal(name: string, n: nat)
    ensures NumberOf(name) == Some(n) <==> exists z, rest :: rest != "" && name == TestName(z, n, rest)
  {
    if NumberOf(name) == Some(n) {
      var z, rest := NumberWasWritten(name, n);
    }
    if z, rest :| rest != "" && name == TestName(z, n, rest) {
      NumberIsRead(z, n, rest);
    }
  }

  function ModuleClassFile(a: string, b: string): seq<Line> {
    [ClassLine(0, "__module__"), TestLine(4, a), TestLine(0, b)]
  }

  /** A class at the margin has the deeper test below it, and not the next one at the margin. */
  lemma FirstClassScopes(lines: seq<Line>)
    requires |lines| >= 3 && lines[0].ClassLine? && lines[0].indent == 0
    requires lines[1].TestLine? && lines[1].indent > 0 && lines[2].TestLine? && lines[2].indent == 0
    ensures ScopeLine(lines, 1) == Some(0) && ScopeLine(lines, 2) == None
    ensures ScopeOfClass(lines, 0) == (lines[0].name, 1)
  {
    ScopeIsInnermost(lines, 1);
    assert StillOpen(lines, 0, 1);
    ScopeIsInnermost(lines, 2);
    FirstInstance(lines, lines[0].name);
  }

  lemma FirstInstance(lines: seq<Line>, name: string)
    requires lines != [] && lines[0].ClassLine? && lines[0].name == name
    ensures ClassCount(lines, 1, name) == 1
  {
    assert ClassCount(lines, 0, name) == 0;
  }

  lemma ModuleClassScopes(a: string, b: string)
    ensures var lines := ModuleClassFile(a, b);
            && ScopeLine(lines, 1) == Some(0) && ScopeLine(lines, 2) == None
            && ScopeOf(lines, 1) == ScopeOf(lines, 2)
  {
    FirstClassScopes(ModuleClassFile(a, b));
  }

  lemma OutOfOrderIsReported(num: Numbering, lines: seq<Line>, i: nat, j: nat)
    requires i < j < |lines| && lines[i].TestLine? && lines[j].TestLine? && ScopeOf(lines, i) == ScopeOf(lines, j)
    requires num(lines[i].name).Some? && num(lines[j].name).Some?
    requires num(lines[j].name).value <= num(lines[i].name).value
    ensures Errors(num, lines, |lines|) != []
  {
    NoErrorsExactlyWhenWellNumbered(num, lines, |lines|);
  }

  /** Two tests in different scopes are always well numbered. */
  lemma OneTestEach(num: Numbering, lines: seq<Line>, i: nat, j: nat)
    requires i < j < |lines| && lines[i].TestLine? && lines[j].TestLine?
    requires forall k | 0 <= k < |lines| && lines[k].TestLine? :: k == i || k == j
    requires ScopeLine(lines, i) != ScopeLine(lines, j)
    requires num(lines[i].name).Some? && num(lines[j].name).Some?
    ensures WellNumberedInScopes(num, lines)
  {
  }

  lemma CollidingTests(num: Numbering, lines: seq<Line>, i: nat, j: nat)
    requires i < j < |lines| && lines[i].TestLine? && lines[j].TestLine?
    requires forall k | 0 <= k < |lines| && lines[k].TestLine? :: k == i || k == j
    requires ScopeLine(lines, i) != ScopeLine(lines, j) && ScopeOf(lines, i) == ScopeOf(lines, j)
    requires num(lines[i].name).Some? && num(lines[j].name).Some?
    requires num(lines[j].name).value <= num(lines[i].name).value
    ensures WellNumberedInScopes(num, lines) && Errors(num, lines, |lines|) != []
  {
    OneTestEach(num, lines, i, j);
    OutOfOrderIsReported(num, lines, i, j);
  }

  /** A class called `__module__` is mixed up with the module: one test in it and one test
      after it are always well numbered in their scopes, and yet reported when the second
      number is not larger. */
  lemma ModuleClassCollides(num: Numbering, a: string, b: string)
    requires num(a).Some? && num(b).Some? && num(b).value <= num(a).value
    ensures WellNumberedInScopes(num, ModuleClassFile(a, b))
    ensures Errors(num, ModuleClassFile(a, b), |ModuleClassFile(a, b)|) != []
  {
    var lines := ModuleClassFile(a, b);
    assert lines[0].ClassLine? && lines[1] == TestLine(4, a) && lines[2] == TestLine(0, b);
    ModuleClassScopes(a, b);
    CollidingTests(num, lines, 1, 2);
  }

  lemma CollisionExample()
    ensures exists lines :: WellNumberedInScopes(NumberOf, lines) && Errors(NumberOf, lines, |lines|) != []
  {
    var a, b := TestName(0, 2, "a"), TestName(0, 1, "b");
    NumberIsRead(0, 2, "a");
    NumberIsRead(0, 1, "b");
    ModuleClassCollides(NumberOf, a, b);
    assert WellNumberedInScopes(NumberOf, ModuleClassFile(a, b));
  }
}
