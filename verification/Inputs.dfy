/**
 Instruction results, awaited promises and task inputs: their IPLD forms, and the
 resolution of promises and links inside arguments.
 */
module Inputs {
  import opened Wrappers
  import opened IpldModel
  import opened Wit

  datatype InstructionResult<+T> = ResOk(inner: T) | ResError(inner: T) | ResJust(inner: T)

  datatype AwaitResult = AwaitOk | AwaitError | AwaitPtr

  datatype Await = Await(instruction: Cid, result: AwaitResult)

  /** Argument of a Wasm call: IPLD still to be lowered, or a component value. */
  datatype Arg = ArgIpld(ipld: Ipld) | ArgValue(val: Val)

  datatype Input = InIpld(ipld: Ipld) | InDeferred(promise: Await) | InArg(result: InstructionResult<Arg>)

  type Lookup = Cid -> Option<InstructionResult<Arg>>

  const OK_BRANCH: string := "await/ok"
  const ERR_BRANCH: string := "await/error"
  const PTR_BRANCH: string := "await/*"

  function Branch(a: AwaitResult): string {
    match a
    case AwaitOk => OK_BRANCH
    case AwaitError => ERR_BRANCH
    case AwaitPtr => PTR_BRANCH
  }

  // ---------------------------------------------------------------------------
  // IPLD forms
  // ---------------------------------------------------------------------------

  function ArgToIpld(c: Codec, a: Arg): Ipld {
    match a
    case ArgIpld(i) => i
    case ArgValue(v) => (match Lift(c, v) case Ok(i) => i case Err(_) => Null)
  }

  function ResultToIpld(c: Codec, r: InstructionResult<Arg>): Ipld {
    var tag := match r case ResOk(_) => "ok" case ResError(_) => "error" case ResJust(_) => "just";
    List([String(tag), ArgToIpld(c, r.inner)])
  }

  function ParseResult(i: Ipld): Option<InstructionResult<Arg>> {
    if i.List? && |i.items| == 2 && i.items[0].String? then
      var arg := ArgIpld(i.items[1]);
      match i.items[0].s
      case "ok" => Some(ResOk(arg))
      case "error" => Some(ResError(arg))
      case "just" => Some(ResJust(arg))
      case _ => None
    else None
  }

  function AwaitToIpld(a: Await): Ipld {
    Map([Entry(Branch(a.result), Link(a.instruction))])
  }

  /** A one-key map holding a link is a promise; any key but two reads as `await/ *`. */
  function ParseAwait(i: Ipld): Option<Await> {
    if i.Map? && |i.entries| == 1 && i.entries[0].value.Link? then
      var key := i.entries[0].key;
      var result := if key == OK_BRANCH then AwaitOk else if key == ERR_BRANCH then AwaitError else AwaitPtr;
      Some(Await(i.entries[0].value.cid, result))
    else None
  }

  /** One element of an argument list, as `Args::try_from` reads it. */
  function ParseInput(i: Ipld): Input {
    match ParseResult(i)
    case Some(r) => InArg(r)
    case None =>
      match ParseAwait(i)
      case Some(a) => InDeferred(a)
      case None => InIpld(i)
  }

  function PrintInput(c: Codec, input: Input): Ipld {
    match input
    case InIpld(i) => i
    case InDeferred(a) => AwaitToIpld(a)
    case InArg(r) => ResultToIpld(c, r)
  }

  function ParseArgs(i: Ipld): Option<seq<Input>> {
    if i.List? then Some(seq(|i.items|, k requires 0 <= k < |i.items| => ParseInput(i.items[k]))) else None
  }

  function PrintArgs(c: Codec, args: seq<Input>): Ipld {
    List(seq(|args|, k requires 0 <= k < |args| => PrintInput(c, args[k])))
  }

  /** A one-key link map is keyed by one of the three branches. */
  predicate NamesBranch(i: Ipld) {
    i.Map? && |i.entries| == 1 && i.entries[0].value.Link? ==>
      i.entries[0].key in {OK_BRANCH, ERR_BRANCH, PTR_BRANCH}
  }

  lemma PrintInputExactly(c: Codec, i: Ipld)
    ensures ParseInput(PrintInput(c, ParseInput(i))) == ParseInput(i)
    ensures PrintInput(c, ParseInput(i)) == i <==> NamesBranch(i)
  {
    if ParseResult(i).Some? {
      assert i.items == [i.items[0], i.items[1]];
    } else if ParseAwait(i).Some? {
      assert i.entries == [i.entries[0]];
      assert OK_BRANCH != ERR_BRANCH && OK_BRANCH != PTR_BRANCH by { assert |OK_BRANCH| == 8 && |PTR_BRANCH| == 7; }
    }
  }

  /** The IPLD form of a result. */
  function Tagged(tag: string, i: Ipld): Ipld {
    List([String(tag), i])
  }

  /** The IPLD form of a promise. */
  function Promised(key: string, c: Cid): Ipld {
    Map([Entry(key, Link(c))])
  }

  ghost predicate IsResult(i: Ipld) {
    exists tag, x :: tag in {"ok", "error", "just"} && i == Tagged(tag, x)
  }

  ghost predicate IsPromise(i: Ipld) {
    exists key, c :: i == Promised(key, c)
  }

  /** What an element of an argument list stands for: a result, a promise, or itself. */
  ghost predicate StandsFor(i: Ipld, input: Input) {
    match input
    case InArg(r) =>
      && r.inner.ArgIpld?
      && i == Tagged(if r.ResOk? then "ok" else if r.ResError? then "error" else "just", r.inner.ipld)
    case InDeferred(a) =>
      exists key :: i == Promised(key, a.instruction)
        && (a.result == AwaitOk <==> key == "await/ok") && (a.result == AwaitError <==> key == "await/error")
    case InIpld(x) => i == x && !IsResult(i) && !IsPromise(i)
  }

  /** Parsing gives the one thing the element stands for. */
  lemma ParsedExactly(i: Ipld, input: Input)
    ensures ParseInput(i) == input <==> StandsFor(i, input)
  {
    if ParseResult(i).Some? {
      assert i.items == [i.items[0], i.items[1]];
      assert i == Tagged(i.items[0].s, i.items[1]);
    } else if ParseAwait(i).Some? {
      assert i.entries == [i.entries[0]];
      assert i == Promised(i.entries[0].key, i.entries[0].value.cid);
    } else {
      assert !IsResult(i) && !IsPromise(i);
    }
  }

  /** Printing and parsing again changes nothing that was parsed from a list. */
  lemma ParsePrintParse(c: Codec, items: seq<Ipld>)
    ensures ParseArgs(PrintArgs(c, ParseArgs(List(items)).value)) == ParseArgs(List(items))
  {
    var args := ParseArgs(List(items)).value;
    var again := ParseArgs(PrintArgs(c, args)).value;
    forall k | 0 <= k < |items| ensures again[k] == args[k] {
      PrintInputExactly(c, items[k]);
    }
    assert again == args;
  }

  /** Printing what was parsed is the identity exactly when promises name a branch. */
  lemma PrintParseExactly(c: Codec, items: seq<Ipld>)
    ensures PrintArgs(c, ParseArgs(List(items)).value) == List(items) <==>
            forall k :: 0 <= k < |items| ==> NamesBranch(items[k])
  {
    var printed := PrintArgs(c, ParseArgs(List(items)).value).items;
    forall k | 0 <= k < |items| ensures printed[k] == items[k] <==> NamesBranch(items[k]) {
      PrintInputExactly(c, items[k]);
    }
    if forall k :: 0 <= k < |items| ==> NamesBranch(items[k]) {
      assert printed == items;
    }
  }

  // ---------------------------------------------------------------------------
  // Resolution
  // ---------------------------------------------------------------------------

  /** `resolve_links`, with the cases of a child inlined in its parent. */
  function ResolveLinks(c: Codec, i: Ipld, f: Lookup): Ipld
    decreases i, 1
  {
    match i
    case Map(es) => Map(Collect(seq(|es|, k requires 0 <= k < |es| => ResolveEntry(c, es[k], f))))
    case List(items) => List(seq(|items|, k requires 0 <= k < |items| => ResolveItem(c, items[k], f)))
    case Link(id) => (match f(id) case Some(r) => ArgToIpld(c, r.inner) case None => i)
    case _ => i
  }

  function ResolveEntry(c: Codec, e: Entry, f: Lookup): Entry
    decreases e, 2
  {
    match e.value
    case Link(id) =>
      (match f(id)
       case Some(r) => Entry(e.key, if e.key == PTR_BRANCH then ResultToIpld(c, r) else ArgToIpld(c, r.inner))
       case None => e)
    case Map(_) => Entry(e.key, ResolveLinks(c, e.value, f))
    case List(_) => Entry(e.key, ResolveLinks(c, e.value, f))
    case _ => e
  }

  function ResolveItem(c: Codec, i: Ipld, f: Lookup): Ipld
    decreases i, 2
  {
    match i
    case Link(id) => (match f(id) case Some(r) => ArgToIpld(c, r.inner) case None => i)
    case Map(_) => ResolveLinks(c, i, f)
    case List(_) => ResolveLinks(c, i, f)
    case _ => i
  }

  function ResolvePromise(a: Await, found: Option<InstructionResult<Arg>>): Input {
    match found
    case Some(r) => InArg(r)
    case None => InDeferred(a)
  }

  /** `Input::resolve`. The awaited branch is carried along but selects nothing. */
  function ResolveInput(c: Codec, input: Input, f: Lookup): Input {
    match input
    case InIpld(i) =>
      (match ParseAwait(i)
       case Some(a) => ResolvePromise(a, f(a.instruction))
       case None => InIpld(ResolveLinks(c, i, f)))
    case InArg(_) => input
    case InDeferred(a) => ResolvePromise(a, f(a.instruction))
  }

  /** The promise an argument is as a whole, if it is one. */
  function PromiseOf(input: Input): Option<Cid> {
    match input
    case InDeferred(a) => Some(a.instruction)
    case InIpld(i) => (match ParseAwait(i) case Some(a) => Some(a.instruction) case None => None)
    case InArg(_) => None
  }

  function ResolveArgs(c: Codec, args: seq<Input>, f: Lookup): seq<Input> {
    seq(|args|, k requires 0 <= k < |args| => ResolveInput(c, args[k], f))
  }

  /** A link, replaced by what was looked up for it; wrapped when it stands under `await/ *`. */
  function Replace(c: Codec, id: Cid, found: Option<InstructionResult<Arg>>, wrap: bool): Ipld {
    match found
    case None => Link(id)
    case Some(r) => if wrap then ResultToIpld(c, r) else ArgToIpld(c, r.inner)
  }

  /** Plain structural substitution of links. */
  ghost function Subst(c: Codec, i: Ipld, f: Lookup, wrap: bool): Ipld
    decreases i
  {
    match i
    case Link(id) => Replace(c, id, f(id), wrap)
    case List(items) => List(seq(|items|, k requires 0 <= k < |items| => Subst(c, items[k], f, false)))
    case Map(es) =>
      Map(seq(|es|, k requires 0 <= k < |es| => Entry(es[k].key, Subst(c, es[k].value, f, es[k].key == PTR_BRANCH))))
    case _ => i
  }

  ghost predicate Mentions(i: Ipld, id: Cid)
    decreases i
  {
    match i
    case Link(x) => x == id
    case List(items) => exists k :: 0 <= k < |items| && Mentions(items[k], id)
    case Map(es) => exists k :: 0 <= k < |es| && Mentions(es[k].value, id)
    case _ => false
  }

  /** The inlined cases of `resolve_links` add up to plain substitution. */
  lemma {:induction false} ResolveLinksIsSubst(c: Codec, i: Ipld, f: Lookup)
    requires WellFormed(i)
    ensures ResolveLinks(c, i, f) == Subst(c, i, f, false)
    decreases i
  {
    match i
    case List(items) =>
      forall k | 0 <= k < |items| ensures ResolveItem(c, items[k], f) == Subst(c, items[k], f, false) {
        assert WellFormed(items[k]);
        ResolveLinksIsSubst(c, items[k], f);
      }
      assert ResolveLinks(c, i, f).items == Subst(c, i, f, false).items;
    case Map(es) =>
      var rs := seq(|es|, k requires 0 <= k < |es| => ResolveEntry(c, es[k], f));
      forall k | 0 <= k < |es|
        ensures rs[k] == Entry(es[k].key, Subst(c, es[k].value, f, es[k].key == PTR_BRANCH))
      {
        assert WellFormed(es[k].value);
        ResolveLinksIsSubst(c, es[k].value, f);
      }
      CollectAscending(rs);
      assert rs == Subst(c, i, f, false).entries;
    case _ =>
  }

  /** Substitution is the identity when every lookup fails. */
  lemma {:induction false} SubstNothing(c: Codec, i: Ipld, f: Lookup, wrap: bool)
    requires forall id :: Mentions(i, id) ==> f(id).None?
    ensures Subst(c, i, f, wrap) == i
    decreases i
  {
    match i
    case List(items) =>
      forall k | 0 <= k < |items| ensures Subst(c, items[k], f, false) == items[k] {
        SubstNothing(c, items[k], f, false);
      }
      assert Subst(c, i, f, wrap).items == items;
    case Map(es) =>
      forall k | 0 <= k < |es| ensures Subst(c, es[k].value, f, es[k].key == PTR_BRANCH) == es[k].value {
        SubstNothing(c, es[k].value, f, es[k].key == PTR_BRANCH);
      }
      assert Subst(c, i, f, wrap).entries == es;
    case Link(id) => assert Mentions(i, id);
    case _ =>
  }

  function OrElse(f: Lookup, g: Lookup): Lookup {
    (id: Cid) => if f(id).Some? then f(id) else g(id)
  }

  /** What `f` finds for the links of `i` holds no link that `g` resolves. */
  ghost predicate Stable(c: Codec, i: Ipld, f: Lookup, g: Lookup) {
    forall id :: Mentions(i, id) && f(id).Some? ==>
      forall x :: Mentions(ArgToIpld(c, f(id).value.inner), x) ==> g(x).None?
  }

  /** Resolving with `f` and then `g` is one pass with `f`, else `g`. */
  lemma {:induction false} SubstTwice(c: Codec, i: Ipld, f: Lookup, g: Lookup, wrap: bool)
    requires Stable(c, i, f, g)
    ensures Subst(c, Subst(c, i, f, wrap), g, wrap) == Subst(c, i, OrElse(f, g), wrap)
    decreases i
  {
    match i
    case List(items) =>
      var once := Subst(c, i, f, wrap).items;
      forall k | 0 <= k < |items|
        ensures Subst(c, once[k], g, false) == Subst(c, items[k], OrElse(f, g), false)
      {
        assert forall id :: Mentions(items[k], id) ==> Mentions(i, id);
        SubstTwice(c, items[k], f, g, false);
      }
      assert Subst(c, List(once), g, wrap).items == Subst(c, i, OrElse(f, g), wrap).items;
    case Map(es) =>
      var once := Subst(c, i, f, wrap).entries;
      forall k | 0 <= k < |es|
        ensures Subst(c, once[k].value, g, es[k].key == PTR_BRANCH)
             == Subst(c, es[k].value, OrElse(f, g), es[k].key == PTR_BRANCH)
      {
        assert forall id :: Mentions(es[k].value, id) ==> Mentions(i, id);
        SubstTwice(c, es[k].value, f, g, es[k].key == PTR_BRANCH);
      }
      assert Subst(c, Map(once), g, wrap).entries == Subst(c, i, OrElse(f, g), wrap).entries;
    case Link(id) =>
      assert Mentions(i, id);
      if f(id).Some? {
        SubstNothing(c, ArgToIpld(c, f(id).value.inner), g, wrap);
        SubstResult(c, f(id).value, g, wrap);
      }
    case _ =>
  }

  lemma SubstResult(c: Codec, r: InstructionResult<Arg>, g: Lookup, wrap: bool)
    requires forall x :: Mentions(ArgToIpld(c, r.inner), x) ==> g(x).None?
    ensures Subst(c, ResultToIpld(c, r), g, wrap) == ResultToIpld(c, r)
  {
    var i := ResultToIpld(c, r);
    forall x | Mentions(i, x) ensures g(x).None? {
      var k :| 0 <= k < 2 && Mentions(i.items[k], x);
      assert k == 1;
    }
    SubstNothing(c, i, g, wrap);
  }

  // ---------------------------------------------------------------------------
  // Lookups made one occurrence at a time
  // ---------------------------------------------------------------------------

  /** Position of a link: the argument's index, then the indices down to the link. */
  type Path = seq<nat>

  /** The answer each occurrence of a link got. */
  type Answers = Path -> Option<InstructionResult<Arg>>

  function LinkAt(i: Ipld, p: Path): Option<Cid>
    decreases i
  {
    if p == [] then (if i.Link? then Some(i.cid) else None)
    else
      match i
      case List(items) => if p[0] < |items| then LinkAt(items[p[0]], p[1..]) else None
      case Map(es) => if p[0] < |es| then LinkAt(es[p[0]].value, p[1..]) else None
      case _ => None
  }

  /** Substitution in which each occurrence of a link has an answer of its own. */
  function SubstAt(c: Codec, i: Ipld, at: Path, answers: Answers, wrap: bool): Ipld
    decreases i
  {
    match i
    case Link(id) => Replace(c, id, answers(at), wrap)
    case List(items) => List(seq(|items|, k requires 0 <= k < |items| => SubstAt(c, items[k], at + [k], answers, false)))
    case Map(es) =>
      Map(seq(|es|, k requires 0 <= k < |es| =>
        Entry(es[k].key, SubstAt(c, es[k].value, at + [k], answers, es[k].key == PTR_BRANCH))))
    case _ => i
  }

  lemma {:induction false} SubstAtAgrees(c: Codec, i: Ipld, at: Path, answers: Answers, f: Lookup, wrap: bool)
    requires forall p :: LinkAt(i, p).Some? ==> answers(at + p) == f(LinkAt(i, p).value)
    ensures SubstAt(c, i, at, answers, wrap) == Subst(c, i, f, wrap)
    decreases i
  {
    match i
    case Link(id) => assert LinkAt(i, []) == Some(id) && at + [] == at;
    case List(items) =>
      forall k | 0 <= k < |items|
        ensures SubstAt(c, items[k], at + [k], answers, false) == Subst(c, items[k], f, false)
      {
        forall p | LinkAt(items[k], p).Some? ensures answers(at + [k] + p) == f(LinkAt(items[k], p).value) {
          assert ([k] + p)[1..] == p && LinkAt(i, [k] + p) == LinkAt(items[k], p);
          assert at + ([k] + p) == at + [k] + p;
        }
        SubstAtAgrees(c, items[k], at + [k], answers, f, false);
      }
      assert SubstAt(c, i, at, answers, wrap).items == Subst(c, i, f, wrap).items;
    case Map(es) =>
      forall k | 0 <= k < |es|
        ensures SubstAt(c, es[k].value, at + [k], answers, es[k].key == PTR_BRANCH)
             == Subst(c, es[k].value, f, es[k].key == PTR_BRANCH)
      {
        forall p | LinkAt(es[k].value, p).Some? ensures answers(at + [k] + p) == f(LinkAt(es[k].value, p).value) {
          assert ([k] + p)[1..] == p && LinkAt(i, [k] + p) == LinkAt(es[k].value, p);
          assert at + ([k] + p) == at + [k] + p;
        }
        SubstAtAgrees(c, es[k].value, at + [k], answers, f, es[k].key == PTR_BRANCH);
      }
      assert SubstAt(c, i, at, answers, wrap).entries == Subst(c, i, f, wrap).entries;
    case _ =>
  }

  lemma {:induction false} LinkAtMentions(i: Ipld, p: Path)
    requires LinkAt(i, p).Some?
    ensures Mentions(i, LinkAt(i, p).value)
    decreases i
  {
    if p != [] {
      match i
      case List(items) => LinkAtMentions(items[p[0]], p[1..]);
      case Map(es) => LinkAtMentions(es[p[0]].value, p[1..]);
      case _ =>
    }
  }
}
