/** The binary call log: a call with any number of arguments becomes one call
    record and as many extra-argument records as it needs.  What a reader that
    follows the record definitions gets back is exactly what was logged, for
    exactly the calls that satisfy `Faithful`. */
module CallLog {

  const MAX_INLINE_ARGS: nat := 2
  const MAX_EXTRA_ARGS: nat := 3
  const INVALID_INSID: nat := 0xFFFF_FFFF
  const MAX_INSID: nat := 0x2000_0000
  const MAX_SHORT: int := 0x7FFF
  const MIN_SHORT: int := -0x8000
  const TWO_32: nat := 0x1_0000_0000

  type InlineArgs = a: seq<nat> | |a| == 2 witness [0, 0]
  type ExtraArgs = a: seq<nat> | |a| == 3 witness [0, 0, 0]

  datatype Flags = Flags(indirect: bool, noReturn: bool, escape: bool)

  /** The record layouts; `insid` is the 29-bit field, `count` the 8-bit `seq`. */
  datatype Rec =
    | InsidRec(insid: nat)
    | LoadRec(insid: nat, addr: nat, data: nat)
    | StoreRec(insid: nat, addr: nat, data: nat)
    | CallRec(insid: nat, flags: Flags, count: nat, narg: nat, funcid: nat, inl: InlineArgs)
    | ExtraRec(insid: nat, flags: Flags, count: nat, narg: nat, extra: ExtraArgs)
    | ReturnRec(insid: nat, flags: Flags, count: nat, narg: nat, funcid: nat, data: nat)

  /** What is logged. */
  datatype Event =
    | Insid(id: nat)
    | Load(id: nat, addr: nat, data: nat)
    | Store(id: nat, addr: nat, data: nat)
    | Call(id: nat, flags: Flags, func: nat, args: seq<nat>)
    | Return(id: nat, flags: Flags, func: nat, narg: nat, data: nat)

  // ----- fields -----------------------------------------------------------------------

  /** setInsid asserts this. */
  predicate InsidFits(id: nat) {
    id == INVALID_INSID || id < MAX_INSID
  }

  function SetInsid(id: nat): (field: nat)
    requires InsidFits(id)
    ensures field < MAX_INSID
  {
    if id == INVALID_INSID then MAX_INSID - 1 else id
  }

  function GetInsid(field: nat): nat {
    if field != MAX_INSID - 1 then field else INVALID_INSID
  }

  /** The assertion in setInsid lets one id through that does not come back. */
  lemma InsidRoundTrip(id: nat)
    requires InsidFits(id)
    ensures GetInsid(SetInsid(id)) == id <==> id != MAX_INSID - 1
    ensures id == MAX_INSID - 1 ==> GetInsid(SetInsid(id)) == INVALID_INSID
  {
  }

  /** NumExtraArgsRecords, in the unsigned arithmetic its constants force. */
  function NumExtra(narg: nat): nat {
    (narg - MAX_INLINE_ARGS + MAX_EXTRA_ARGS - 1) % TWO_32 / MAX_EXTRA_ARGS
  }

  function Min(a: int, b: int): int {
    if b < a then b else a
  }

  /** A conversion to a 16-bit signed integer. */
  function ToShort(x: int): (r: int)
    ensures MIN_SHORT <= r <= MAX_SHORT
    ensures MIN_SHORT <= x <= MAX_SHORT ==> r == x
  {
    (x - MIN_SHORT) % 0x1_0000 + MIN_SHORT
  }

  /** ExtraArgsRec::numArgsInRec. */
  function NumArgsInExtra(narg: nat, count: nat): int {
    Min(ToShort(narg - MAX_INLINE_ARGS - (count - 1) * MAX_EXTRA_ARGS), MAX_EXTRA_ARGS)
  }

  // ----- writing ----------------------------------------------------------------------

  /** What the mapped file held where nothing is written. */
  datatype Stale = Stale(flags: Flags, words: ExtraArgs)

  predicate Loggable(e: Event) {
    && InsidFits(e.id)
    && (e.Call? ==> |e.args| <= MAX_SHORT)
    && (e.Return? ==> e.narg <= MAX_SHORT && !e.flags.noReturn)
  }

  /** Where the loop over extra record `k` stops: its bound is cut to 16 bits. */
  function ExtraEnd(narg: nat, k: nat): int {
    Min(narg, ToShort(MAX_INLINE_ARGS + MAX_EXTRA_ARGS * k))
  }

  /** The arguments logCall writes into extra record `k`. */
  function Written(narg: nat, k: nat): (n: nat)
    requires k >= 1
    ensures n <= MAX_EXTRA_ARGS
  {
    var lo, hi := Min(narg, MAX_EXTRA_ARGS * k - 1), ExtraEnd(narg, k);
    if hi > lo then hi - lo else 0
  }

  /** They are followed by what was there. */
  function ExtraWords(args: seq<nat>, k: nat, stale: Stale): ExtraArgs
    requires k >= 1
  {
    var lo, n := Min(|args|, MAX_EXTRA_ARGS * k - 1), Written(|args|, k);
    Filled(args, lo, n, stale.words)
  }

  function Filled(args: seq<nat>, lo: nat, n: nat, words: ExtraArgs): ExtraArgs
    requires lo + n <= |args| && n <= MAX_EXTRA_ARGS
  {
    args[lo..lo + n] + words[n..]
  }

  function InlineWords(args: seq<nat>, stale: Stale): InlineArgs {
    var n := Min(|args|, MAX_INLINE_ARGS);
    args[..n] + stale.words[n..2]
  }

  function ExtraAt(e: Event, k: nat, stale: Stale): Rec
    requires e.Call? && Loggable(e) && k >= 1
  {
    ExtraRec(SetInsid(e.id), stale.flags, k % 256, |e.args|, ExtraWords(e.args, k, stale))
  }

  function Extras(e: Event, n: nat, stale: Stale): seq<Rec>
    requires e.Call? && Loggable(e)
  {
    seq(n, k requires 0 <= k < n => ExtraAt(e, k + 1, stale))
  }

  function CallHead(e: Event, stale: Stale): Rec
    requires e.Call? && Loggable(e)
  {
    CallRec(SetInsid(e.id), e.flags, 0, |e.args|, e.func, InlineWords(e.args, stale))
  }

  /** The records logged for one event. */
  function Encode(e: Event, stale: Stale): seq<Rec>
    requires Loggable(e)
  {
    match e
    case Insid(id) => [InsidRec(SetInsid(id))]
    case Load(id, addr, data) => [LoadRec(SetInsid(id), addr, data)]
    case Store(id, addr, data) => [StoreRec(SetInsid(id), addr, data)]
    case Call(id, flags, func, args) =>
      [CallHead(e, stale)] + Extras(e, NumExtra(|args|), stale)
    case Return(id, flags, func, narg, data) =>
      [ReturnRec(SetInsid(id), flags, (NumExtra(narg) + 1) % 256, narg, func, data)]
  }

  function Flatten(parts: seq<seq<Rec>>): seq<Rec> {
    if parts == [] then [] else parts[0] + Flatten(parts[1..])
  }

  function Parts(es: seq<Event>, stale: Stale): seq<seq<Rec>>
    requires forall i :: 0 <= i < |es| ==> Loggable(es[i])
  {
    seq(|es|, i requires 0 <= i < |es| => Encode(es[i], stale))
  }

  function EncodeAll(es: seq<Event>, stale: Stale): seq<Rec>
    requires forall i :: 0 <= i < |es| ==> Loggable(es[i])
  {
    Flatten(Parts(es, stale))
  }

  lemma {:induction false} FlattenAppend(parts: seq<seq<Rec>>, last: seq<Rec>)
    ensures Flatten(parts + [last]) == Flatten(parts) + last
  {
    if parts == [] {
      assert Flatten([last]) == last + Flatten([last][1..]);
    } else {
      FlattenAppend(parts[1..], last);
      assert (parts + [last])[0] == parts[0] && (parts + [last])[1..] == parts[1..] + [last];
      assert parts[0] + (Flatten(parts[1..]) + last) == (parts[0] + Flatten(parts[1..])) + last;
    }
  }

  /** Logging one more event appends its records. */
  lemma EncodeAppend(es: seq<Event>, e: Event, stale: Stale)
    requires (forall i :: 0 <= i < |es| ==> Loggable(es[i])) && Loggable(e)
    ensures EncodeAll(es + [e], stale) == EncodeAll(es, stale) + Encode(e, stale)
  {
    FlattenAppend(Parts(es, stale), Encode(e, stale));
    assert Parts(es + [e], stale) == Parts(es, stale) + [Encode(e, stale)];
  }

  // ----- reading ----------------------------------------------------------------------

  datatype Option<T> = None | Some(value: T)

  /** What a reader takes from an extra record. */
  function Taken(r: Rec): seq<nat>
    requires r.ExtraRec?
  {
    var n := NumArgsInExtra(r.narg, r.count);
    r.extra[..if n < 0 then 0 else n]
  }

  /** The arguments of the extra records, as many from each as it says. */
  function Gather(recs: seq<Rec>): Option<seq<nat>> {
    if recs == [] then Some([])
    else if !recs[0].ExtraRec? then None
    else
      match Gather(recs[1..])
      case None => None
      case Some(more) => Some(Taken(recs[0]) + more)
  }

  /** One event and the number of records it takes. */
  function DecodeOne(recs: seq<Rec>): Option<(Event, nat)>
    requires recs != []
  {
    match recs[0]
    case InsidRec(f) => Some((Insid(GetInsid(f)), 1))
    case LoadRec(f, addr, data) => Some((Load(GetInsid(f), addr, data), 1))
    case StoreRec(f, addr, data) => Some((Store(GetInsid(f), addr, data), 1))
    case CallRec(f, flags, _, narg, func, inl) =>
      var n := 1 + NumExtra(narg);
      if |recs| < n then None
      else (match Gather(recs[1..n])
            case None => None
            case Some(more) => Some((Call(GetInsid(f), flags, func, inl[..Min(narg, MAX_INLINE_ARGS)] + more), n)))
    case ExtraRec(_, _, _, _, _) => None
    case ReturnRec(f, flags, _, narg, func, data) => Some((Return(GetInsid(f), flags, func, narg, data), 1))
  }

  function Decode(recs: seq<Rec>): Option<seq<Event>>
    decreases |recs|
  {
    if recs == [] then Some([])
    else match DecodeOne(recs)
      case None => None
      case Some((e, n)) =>
        if n == 0 || n > |recs| then None
        else match Decode(recs[n..])
          case None => None
          case Some(es) => Some([e] + es)
  }

  // ----- the round trip -----------------------------------------------------------------

  /** The event comes back as it was. */
  predicate Faithful(e: Event) {
    e.id != MAX_INSID - 1 && (e.Call? ==> NumbersKept(|e.args|))
  }

  /** The 8-bit record numbers do not matter: there are less than 256 extra
      records, or the last one is full. */
  predicate NumbersKept(narg: nat) {
    narg < 768 || narg % 3 == 2
  }

  /** What a reader takes from the first `k` extra records. */
  function Read(e: Event, k: nat, stale: Stale): seq<nat>
    requires e.Call? && Loggable(e)
  {
    if k == 0 then [] else Read(e, k - 1, stale) + Taken(ExtraAt(e, k, stale))
  }

  /** The event as it comes back. */
  function Seen(e: Event, stale: Stale): Event
    requires Loggable(e)
  {
    var e1 := e.(id := GetInsid(SetInsid(e.id)));
    if e.Call? then e1.(args := e.args[..Min(|e.args|, MAX_INLINE_ARGS)] + Read(e, NumExtra(|e.args|), stale)) else e1
  }

  /** How many arguments extra record `k` says it has. */
  function Reported(narg: nat, k: nat): int {
    NumArgsInExtra(narg, k % 256)
  }

  lemma ReportedIs(narg: nat, k: nat)
    requires narg <= MAX_SHORT && 1 <= k <= narg / 3
    ensures Reported(narg, k) ==
            if narg == MAX_SHORT && k % 256 == 0 then MIN_SHORT
            else if k == narg / 3 && narg < 768 then narg % 3 + 1
            else MAX_EXTRA_ARGS
  {
    assert narg == 3 * (narg / 3) + narg % 3;
    if narg < 768 {
      assert k % 256 == k;
    } else if k >= 256 {
      assert k % 256 <= k - 256;
    }
  }

  lemma WrittenIs(narg: nat, k: nat)
    requires narg <= MAX_SHORT && 1 <= k <= narg / 3
    ensures Written(narg, k) ==
            if k < narg / 3 then MAX_EXTRA_ARGS else if narg >= MAX_SHORT - 1 then 0 else narg % 3 + 1
  {
    assert narg == 3 * (narg / 3) + narg % 3;
  }

  /** A record reports what was written exactly when its number is not cut, or
      it is not the last, or it is full. */
  lemma ReportedMeetsWritten(narg: nat, k: nat)
    requires narg <= MAX_SHORT && 1 <= k <= narg / 3
    ensures NumbersKept(narg) ==> Reported(narg, k) == Written(narg, k)
    ensures !NumbersKept(narg) && k == narg / 3 ==> Reported(narg, k) != Written(narg, k)
  {
    ReportedIs(narg, k);
    WrittenIs(narg, k);
  }

  lemma Join3(args: seq<nat>, lo: nat, mid: nat, hi: nat)
    requires lo <= mid <= hi <= |args|
    ensures args[lo..mid] + args[mid..hi] == args[lo..hi]
  {
  }

  lemma {:induction false} ReadIs(e: Event, k: nat, stale: Stale)
    requires e.Call? && Loggable(e) && NumbersKept(|e.args|) && 1 <= k <= |e.args| / 3
    ensures Read(e, k, stale) == e.args[2..Min(|e.args|, 3 * k + 2)]
  {
    TakenIs(e, k, stale);
    if k == 1 {
      assert Read(e, 1, stale) == [] + Taken(ExtraAt(e, 1, stale));
    } else {
      ReadIs(e, k - 1, stale);
      Join3(e.args, 2, 3 * k - 1, Min(|e.args|, 3 * k + 2));
    }
  }

  /** A record that reports what was written gives back what was written. */
  lemma TakenIs(e: Event, k: nat, stale: Stale)
    requires e.Call? && Loggable(e) && NumbersKept(|e.args|) && 1 <= k <= |e.args| / 3
    ensures Taken(ExtraAt(e, k, stale)) == e.args[3 * k - 1..Min(|e.args|, 3 * k + 2)]
  {
    var n := Written(|e.args|, k);
    WrittenIs(|e.args|, k);
    ReportedMeetsWritten(|e.args|, k);
    assert Filled(e.args, 3 * k - 1, n, stale.words)[..n] == e.args[3 * k - 1..3 * k - 1 + n];
  }

  /** With record numbers cut, a reader takes too much or too little. */
  lemma {:induction false} ReadLength(e: Event, k: nat, stale: Stale)
    requires e.Call? && Loggable(e) && |e.args| >= 768 && k <= |e.args| / 3
    ensures |e.args| < MAX_SHORT ==> |Read(e, k, stale)| == 3 * k
    ensures |Read(e, k, stale)| <= if |e.args| == MAX_SHORT && k >= 256 then 3 * k - 3 else 3 * k
  {
    if k > 0 {
      ReadLength(e, k - 1, stale);
      ReportedIs(|e.args|, k);
    } else {
      assert Read(e, k, stale) == [];
    }
  }

  lemma SeenExactly(e: Event, stale: Stale)
    requires Loggable(e)
    ensures Seen(e, stale) == e <==> Faithful(e)
  {
    InsidRoundTrip(e.id);
    if e.Call? {
      ArgsBack(e, stale);
    }
  }

  lemma ArgsBack(e: Event, stale: Stale)
    requires e.Call? && Loggable(e)
    ensures Seen(e, stale).args == e.args <==> NumbersKept(|e.args|)
  {
    var n := |e.args|;
    assert NumExtra(n) == n / 3;
    if !NumbersKept(n) {
      ReadLength(e, n / 3, stale);
    } else if n < 3 {
      assert e.args[..Min(n, 2)] + [] == e.args;
    } else {
      ReadIs(e, n / 3, stale);
      Join3(e.args, 0, 2, n);
      assert e.args[0..n] == e.args && e.args[..2] == e.args[0..2];
      assert e.args[2..n] == e.args[2..Min(n, 3 * (n / 3) + 2)];
    }
  }

  lemma GatherCons(r: Rec, rest: seq<Rec>, more: seq<nat>)
    requires r.ExtraRec? && Gather(rest) == Some(more)
    ensures Gather([r] + rest) == Some(Taken(r) + more)
  {
    assert ([r] + rest)[1..] == rest;
  }

  lemma {:induction false} GatherSnoc(recs: seq<Rec>, more: seq<nat>, r: Rec)
    requires r.ExtraRec? && Gather(recs) == Some(more)
    ensures Gather(recs + [r]) == Some(more + Taken(r))
  {
    if recs == [] {
      GatherCons(r, [], []);
      assert recs + [r] == [r] + [] && Taken(r) + [] == [] + Taken(r);
    } else {
      var rest := Gather(recs[1..]).value;
      GatherSnoc(recs[1..], rest, r);
      GatherCons(recs[0], recs[1..] + [r], rest + Taken(r));
      assert recs + [r] == [recs[0]] + (recs[1..] + [r]);
      assert Taken(recs[0]) + (rest + Taken(r)) == (Taken(recs[0]) + rest) + Taken(r);
    }
  }

  lemma {:induction false} GatherExtras(e: Event, n: nat, stale: Stale)
    requires e.Call? && Loggable(e)
    ensures Gather(Extras(e, n, stale)) == Some(Read(e, n, stale))
  {
    if n == 0 {
      assert Extras(e, 0, stale) == [];
    } else {
      GatherExtras(e, n - 1, stale);
      ExtrasGrow(e, n, stale);
      GatherSnoc(Extras(e, n - 1, stale), Read(e, n - 1, stale), ExtraAt(e, n, stale));
    }
  }

  lemma DecodeOneEncoded(e: Event, rest: seq<Rec>, stale: Stale)
    requires Loggable(e)
    ensures DecodeOne(Encode(e, stale) + rest) == Some((Seen(e, stale), |Encode(e, stale)|))
  {
    if e.Call? {
      var n := NumExtra(|e.args|);
      var m := Min(|e.args|, MAX_INLINE_ARGS);
      assert (Encode(e, stale) + rest)[1..1 + n] == Extras(e, n, stale);
      assert InlineWords(e.args, stale)[..m] == e.args[..m];
      GatherExtras(e, n, stale);
    }
  }

  function SeenAll(es: seq<Event>, stale: Stale): seq<Event>
    requires forall i :: 0 <= i < |es| ==> Loggable(es[i])
  {
    seq(|es|, i requires 0 <= i < |es| => Seen(es[i], stale))
  }

  lemma DecodeStep(e: Event, rest: seq<Rec>, es: seq<Event>, stale: Stale)
    requires Loggable(e) && Decode(rest) == Some(es)
    ensures Decode(Encode(e, stale) + rest) == Some([Seen(e, stale)] + es)
  {
    DecodeOneEncoded(e, rest, stale);
    assert (Encode(e, stale) + rest)[|Encode(e, stale)|..] == rest;
  }

  lemma EncodeHead(es: seq<Event>, stale: Stale)
    requires es != [] && forall i :: 0 <= i < |es| ==> Loggable(es[i])
    ensures EncodeAll(es, stale) == Encode(es[0], stale) + EncodeAll(es[1..], stale)
    ensures SeenAll(es, stale) == [Seen(es[0], stale)] + SeenAll(es[1..], stale)
  {
    assert Parts(es, stale)[1..] == Parts(es[1..], stale);
  }

  lemma {:induction false} DecodeEncoded(es: seq<Event>, stale: Stale)
    requires forall i :: 0 <= i < |es| ==> Loggable(es[i])
    ensures Decode(EncodeAll(es, stale)) == Some(SeenAll(es, stale))
  {
    if es != [] {
      DecodeEncoded(es[1..], stale);
      EncodeHead(es, stale);
      DecodeStep(es[0], EncodeAll(es[1..], stale), SeenAll(es[1..], stale), stale);
    } else {
      assert SeenAll(es, stale) == [];
    }
  }

  /** Reading a log gives back the logged events, in order and complete, exactly
      when each of them is faithful. */
  lemma RoundTrip(es: seq<Event>, stale: Stale)
    requires forall i :: 0 <= i < |es| ==> Loggable(es[i])
    ensures Decode(EncodeAll(es, stale)) == Some(es) <==> forall i :: 0 <= i < |es| ==> Faithful(es[i])
  {
    DecodeEncoded(es, stale);
    forall i | 0 <= i < |es| ensures SeenAll(es, stale)[i] == es[i] <==> Faithful(es[i]) {
      SeenExactly(es[i], stale);
    }
    if Decode(EncodeAll(es, stale)) == Some(es) {
      forall i | 0 <= i < |es| ensures Faithful(es[i]) {
        assert SeenAll(es, stale)[i] == es[i];
      }
    } else {
      assert SeenAll(es, stale) != es;
    }
  }

  // ----- field by field ------------------------------------------------------------------------

  /** Every record of an event carries the event's instruction id. */
  lemma InsidEverywhere(e: Event, stale: Stale, i: nat)
    requires Loggable(e) && e.id != MAX_INSID - 1 && i < |Encode(e, stale)|
    ensures GetInsid(Encode(e, stale)[i].insid) == e.id
  {
    InsidRoundTrip(e.id);
    if e.Call? && i > 0 {
      assert Encode(e, stale)[i] == ExtraAt(e, i, stale);
    }
  }

  /** A call record, slot by slot: arguments where there are any, and what was in
      the file where nothing is written. */
  lemma CallFields(e: Event, stale: Stale, j: nat)
    requires e.Call? && Loggable(e) && j < MAX_INLINE_ARGS
    ensures var r := Encode(e, stale)[0];
            && r.CallRec? && r.flags == e.flags && r.count == 0 && r.narg == |e.args| && r.funcid == e.func
            && r.inl[j] == if j < |e.args| then e.args[j] else stale.words[j]
  {
  }

  /** Extra record `i`, slot by slot; logCall leaves its flags alone.  The last one
      of a call with 32766 or 32767 arguments gets none. */
  lemma ExtraFields(e: Event, stale: Stale, i: nat, j: nat)
    requires e.Call? && Loggable(e) && 1 <= i < |Encode(e, stale)| && j < MAX_EXTRA_ARGS
    ensures var r, p := Encode(e, stale)[i], MAX_INLINE_ARGS + MAX_EXTRA_ARGS * (i - 1) + j;
            && r.ExtraRec? && r.flags == stale.flags && r.count == i % 256 && r.narg == |e.args|
            && r.extra[j] == if p < |e.args| && (i < |e.args| / 3 || |e.args| < MAX_SHORT - 1) then e.args[p]
                             else stale.words[j]
  {
    ExtraRecord(e, stale, i);
    AtFields(e, stale, i, j);
  }

  lemma ExtraRecord(e: Event, stale: Stale, i: nat)
    requires e.Call? && Loggable(e) && 1 <= i < |Encode(e, stale)|
    ensures Encode(e, stale)[i] == ExtraAt(e, i, stale) && i <= |e.args| / 3
  {
    var extras := Extras(e, NumExtra(|e.args|), stale);
    assert Encode(e, stale) == [CallHead(e, stale)] + extras;
    assert |extras| == |e.args| / 3;
    assert extras[i - 1] == ExtraAt(e, i, stale);
  }

  lemma AtFields(e: Event, stale: Stale, i: nat, j: nat)
    requires e.Call? && Loggable(e) && 1 <= i <= |e.args| / 3 && j < MAX_EXTRA_ARGS
    ensures var r, p := ExtraAt(e, i, stale), MAX_INLINE_ARGS + MAX_EXTRA_ARGS * (i - 1) + j;
            && r.ExtraRec? && r.flags == stale.flags && r.count == i % 256 && r.narg == |e.args|
            && r.extra[j] == if p < |e.args| && (i < |e.args| / 3 || |e.args| < MAX_SHORT - 1) then e.args[p]
                             else stale.words[j]
  {
    SlotWritten(|e.args|, i, j);
    SlotOf(e.args, i, stale, j);
  }

  lemma SlotOf(args: seq<nat>, i: nat, stale: Stale, j: nat)
    requires 1 <= i && j < MAX_EXTRA_ARGS && 3 * i - 1 + Written(|args|, i) <= |args|
    ensures ExtraWords(args, i, stale)[j] == if j < Written(|args|, i) then args[3 * i - 1 + j] else stale.words[j]
  {
    FilledAt(args, 3 * i - 1, Written(|args|, i), stale.words, j);
  }

  lemma SlotWritten(narg: nat, i: nat, j: nat)
    requires narg <= MAX_SHORT && 1 <= i <= narg / 3 && j < MAX_EXTRA_ARGS
    ensures 3 * i - 1 + Written(narg, i) <= narg && Min(narg, MAX_EXTRA_ARGS * i - 1) == 3 * i - 1
    ensures j < Written(narg, i) <==> 3 * i - 1 + j < narg && (i < narg / 3 || narg < MAX_SHORT - 1)
  {
    WrittenIs(narg, i);
    assert narg == 3 * (narg / 3) + narg % 3;
  }

  lemma FilledAt(args: seq<nat>, lo: nat, n: nat, words: ExtraArgs, j: nat)
    requires lo + n <= |args| && n <= MAX_EXTRA_ARGS && j < MAX_EXTRA_ARGS
    ensures Filled(args, lo, n, words)[j] == if j < n then args[lo + j] else words[j]
  {
  }

  /** The other records, field by field. */
  lemma PlainFields(e: Event, stale: Stale)
    requires Loggable(e) && !e.Call?
    ensures |Encode(e, stale)| == 1
    ensures var r := Encode(e, stale)[0];
            match e
            case Insid(_) => r.InsidRec?
            case Load(_, addr, data) => r.LoadRec? && r.addr == addr && r.data == data
            case Store(_, addr, data) => r.StoreRec? && r.addr == addr && r.data == data
            case Return(_, flags, func, narg, data) =>
              && r.ReturnRec? && r.flags == flags && r.funcid == func && r.narg == narg && r.data == data
              && r.count == (narg / 3 + 1) % 256
            case Call(_, _, _, _) => false
  {
  }

  // ----- argument counts --------------------------------------------------------------------

  /** numArgsInRec of a call record or an extra record. */
  function ArgsIn(r: Rec): int {
    match r
    case CallRec(_, _, _, narg, _, _) => Min(narg, MAX_INLINE_ARGS)
    case ExtraRec(_, _, count, narg, _) => NumArgsInExtra(narg, count)
    case _ => 0
  }

  function SumArgs(recs: seq<Rec>): int {
    if recs == [] then 0 else SumArgs(recs[..|recs| - 1]) + ArgsIn(recs[|recs| - 1])
  }

  /** The records of a call: enough of them; each reports between one and three
      arguments unless there are 32767; and each reports exactly the arguments
      written into it precisely when the record numbers do not matter. */
  lemma ExtraRecordsFit(e: Event, stale: Stale)
    requires e.Call? && Loggable(e)
    ensures var recs := Encode(e, stale);
            && MAX_INLINE_ARGS + MAX_EXTRA_ARGS * (|recs| - 1) >= |e.args|
            && ((forall i :: 1 <= i < |recs| ==> 1 <= ArgsIn(recs[i]) <= MAX_EXTRA_ARGS) <==> |e.args| < MAX_SHORT)
            && ((forall i :: 1 <= i < |recs| ==> ArgsIn(recs[i]) == Written(|e.args|, i)) <==> NumbersKept(|e.args|))
  {
    var recs, n := Encode(e, stale), |e.args|;
    assert |recs| == 1 + n / 3;
    forall i | 1 <= i < |recs| ensures ArgsIn(recs[i]) == Reported(n, i) {
      assert recs[i] == ExtraAt(e, i, stale);
    }
    forall i | 1 <= i < |recs|
      ensures n < MAX_SHORT ==> 1 <= Reported(n, i) <= MAX_EXTRA_ARGS
      ensures NumbersKept(n) ==> Reported(n, i) == Written(n, i)
    {
      ReportedIs(n, i);
      ReportedMeetsWritten(n, i);
    }
    if n == MAX_SHORT {
      ReportedIs(n, 256);
    }
    if !NumbersKept(n) {
      ReportedMeetsWritten(n, n / 3);
    }
  }

  /** The counts of the first `k` extra records. */
  function Reports(narg: nat, k: nat): int {
    if k == 0 then 0 else Reports(narg, k - 1) + Reported(narg, k)
  }

  lemma {:induction false} SumOfCall(e: Event, call: Rec, k: nat, stale: Stale)
    requires e.Call? && Loggable(e) && call.CallRec?
    ensures SumArgs([call] + Extras(e, k, stale)) == ArgsIn(call) + Reports(|e.args|, k)
  {
    var recs := [call] + Extras(e, k, stale);
    if k == 0 {
      assert recs[..0] == [] && recs[0] == call;
    } else {
      SumOfCall(e, call, k - 1, stale);
      ExtrasGrow(e, k, stale);
      assert recs[..k] == [call] + Extras(e, k - 1, stale) && recs[k] == ExtraAt(e, k, stale);
    }
  }

  lemma {:induction false} ReportsAre(narg: nat, k: nat)
    requires narg <= MAX_SHORT && k <= narg / 3
    ensures narg == MAX_SHORT ==> Reports(narg, k) <= if k >= 256 then 3 * k - MAX_SHORT else 3 * k
    ensures narg < MAX_SHORT ==>
              Reports(narg, k) == if k > 0 && k == narg / 3 && narg < 768 then 3 * k - 2 + narg % 3 else 3 * k
  {
    if k > 0 {
      ReportsAre(narg, k - 1);
      ReportedIs(narg, k);
    } else {
      assert Reports(narg, k) == 0;
    }
  }

  /** The argument counts in the records of a call add up to its arguments
      exactly when the record numbers do not matter. */
  lemma ArgsAddUp(e: Event, stale: Stale)
    requires e.Call? && Loggable(e)
    ensures SumArgs(Encode(e, stale)) == |e.args| <==> NumbersKept(|e.args|)
  {
    var n := |e.args|;
    assert NumExtra(n) == n / 3 && Encode(e, stale) == [CallHead(e, stale)] + Extras(e, n / 3, stale);
    SumOfCall(e, CallHead(e, stale), n / 3, stale);
    ReportsTotal(n);
  }

  lemma ReportsTotal(narg: nat)
    requires narg <= MAX_SHORT
    ensures Min(narg, MAX_INLINE_ARGS) + Reports(narg, narg / 3) == narg <==> NumbersKept(narg)
  {
    assert narg == 3 * (narg / 3) + narg % 3;
    ReportsAre(narg, narg / 3);
  }

  /** The smallest call that is not read back: 768 arguments make 256 extra
      records, the last is numbered 0 and claims three arguments instead of one. */
  lemma TooManyArgs(e: Event, stale: Stale)
    requires e.Call? && Loggable(e) && |e.args| == 768
    ensures Decode(EncodeAll([e], stale)) != Some([e])
    ensures |Encode(e, stale)| == 257 && ArgsIn(Encode(e, stale)[256]) == 3 && Written(768, 256) == 1
    ensures SumArgs(Encode(e, stale)) == 770
  {
    NotReadBack(e, stale);
    LastClaimsThree(e, stale);
    Sum770(e, stale);
  }

  lemma LastClaimsThree(e: Event, stale: Stale)
    requires e.Call? && Loggable(e) && |e.args| == 768
    ensures |Encode(e, stale)| == 257 && ArgsIn(Encode(e, stale)[256]) == 3 && Written(768, 256) == 1
  {
    assert Encode(e, stale)[256] == ExtraAt(e, 256, stale);
    ReportedIs(768, 256);
    WrittenIs(768, 256);
  }

  lemma Sum770(e: Event, stale: Stale)
    requires e.Call? && Loggable(e) && |e.args| == 768
    ensures SumArgs(Encode(e, stale)) == 770
  {
    assert Encode(e, stale) == [CallHead(e, stale)] + Extras(e, 256, stale);
    SumOfCall(e, CallHead(e, stale), 256, stale);
    ReportsAre(768, 256);
  }

  lemma NotReadBack(e: Event, stale: Stale)
    requires Loggable(e) && !Faithful(e)
    ensures Decode(EncodeAll([e], stale)) != Some([e])
  {
    RoundTrip([e], stale);
    assert !Faithful([e][0]);
  }

  // ----- sequence numbers and record counts ------------------------------------------------

  predicate IsCallRec(r: Rec) {
    r.CallRec? || r.ExtraRec? || r.ReturnRec?
  }

  /** The 8-bit sequence numbers of a call and its return are 0, 1, 2, ...
      exactly when the call has at most 764 arguments. */
  lemma SequenceNumbers(args: seq<nat>, stale: Stale, id: nat, flags: Flags, func: nat, data: nat)
    requires InsidFits(id) && |args| <= MAX_SHORT && !flags.noReturn
    ensures var call, ret := Call(id, flags, func, args), Return(id, flags, func, |args|, data);
            var recs := Encode(call, stale) + Encode(ret, stale);
            (forall i :: 0 <= i < |recs| ==> IsCallRec(recs[i]) && recs[i].count == i)
            <==> |args| <= 764
  {
    var call, ret := Call(id, flags, func, args), Return(id, flags, func, |args|, data);
    var recs := Encode(call, stale) + Encode(ret, stale);
    assert |recs| == |args| / 3 + 2;
    forall i | 0 <= i < |recs| ensures IsCallRec(recs[i]) && recs[i].count == i % 256 {
      if i < |recs| - 1 {
        NumberOf(call, stale, i);
      }
    }
    assert recs[|recs| - 1].count == (|recs| - 1) % 256;
  }

  /** The 8-bit number of a call's record `i`. */
  lemma NumberOf(e: Event, stale: Stale, i: nat)
    requires e.Call? && Loggable(e) && i < |Encode(e, stale)|
    ensures IsCallRec(Encode(e, stale)[i]) && Encode(e, stale)[i].count == i % 256
  {
    if i > 0 {
      assert Encode(e, stale)[i] == ExtraAt(e, i, stale);
    }
  }

  /** numRecForInst: the records of the call a record belongs to. */
  function NumRecForInst(r: Rec): nat {
    if r.CallRec? || r.ExtraRec? || r.ReturnRec?
    then 1 + NumExtra(r.narg) + if r.flags.noReturn then 0 else 1
    else 1
  }

  /** A return record knows how many records its call and it take. */
  lemma ReturnCounts(call: Event, ret: Event, stale: Stale)
    requires call.Call? && Loggable(call) && ret.Return? && Loggable(ret) && ret.narg == |call.args|
    ensures NumRecForInst(Encode(ret, stale)[0]) == |Encode(call, stale)| + |Encode(ret, stale)|
  {
  }

  /** A call record knows how many records the call and its return take; an extra
      record does exactly when the byte that logCall never writes happens to agree
      with the call about CallNoReturn. */
  lemma RecordCounts(e: Event, stale: Stale, i: nat)
    requires e.Call? && Loggable(e) && i < |Encode(e, stale)|
    ensures NumRecForInst(Encode(e, stale)[i]) == |Encode(e, stale)| + (if e.flags.noReturn then 0 else 1) <==>
            i == 0 || stale.flags.noReturn == e.flags.noReturn
  {
    if i > 0 {
      assert Encode(e, stale)[i] == ExtraAt(e, i, stale);
    }
  }

  lemma ExtrasGrow(e: Event, n: nat, stale: Stale)
    requires e.Call? && Loggable(e) && n >= 1
    ensures Extras(e, n, stale) == Extras(e, n - 1, stale) + [ExtraAt(e, n, stale)]
  {
  }

  lemma FillOne(args: seq<nat>, lo: nat, n: nat, words: ExtraArgs)
    requires lo + n < |args| && n < MAX_EXTRA_ARGS
    ensures Filled(args, lo, n, words)[n := args[lo + n]] == Filled(args, lo, n + 1, words)
  {
  }

  lemma OneMoreExtra(before: seq<Rec>, e: Event, n: nat, stale: Stale)
    requires e.Call? && Loggable(e) && n >= 1
    ensures before + ([CallHead(e, stale)] + Extras(e, n - 1, stale)) + [ExtraAt(e, n, stale)] ==
            before + ([CallHead(e, stale)] + Extras(e, n, stale))
  {
    ExtrasGrow(e, n, stale);
  }

  // ----- the logger ------------------------------------------------------------------------

  class BinLogger {
    const stale: Stale
    var recs: seq<Rec>

    constructor (stale: Stale)
      ensures recs == [] && this.stale == stale
    {
      this.stale := stale;
      recs := [];
    }

    method LogInsid(id: nat)
      requires Loggable(Insid(id))
      modifies this`recs
      ensures recs == old(recs) + Encode(Insid(id), stale)
    {
      recs := recs + [InsidRec(SetInsid(id))];
    }

    method LogLoad(id: nat, addr: nat, data: nat)
      requires Loggable(Load(id, addr, data))
      modifies this`recs
      ensures recs == old(recs) + Encode(Load(id, addr, data), stale)
    {
      recs := recs + [LoadRec(SetInsid(id), addr, data)];
    }

    method LogStore(id: nat, addr: nat, data: nat)
      requires Loggable(Store(id, addr, data))
      modifies this`recs
      ensures recs == old(recs) + Encode(Store(id, addr, data), stale)
    {
      recs := recs + [StoreRec(SetInsid(id), addr, data)];
    }

    /** An indirect call of exit or pthread_exit is marked CallNoReturn. */
    method LogCall(flags: Flags, id: nat, func: nat, exits: bool, args: seq<nat>)
      requires Loggable(Call(id, flags, func, args))
      modifies this`recs
      ensures var noReturn := flags.noReturn || (flags.indirect && exits);
              recs == old(recs) + Encode(Call(id, flags.(noReturn := noReturn), func, args), stale)
    {
      var fl := flags;
      if flags.indirect && exits {
        fl := fl.(noReturn := true);
      }
      ghost var e := Call(id, fl, func, args);
      var narg := |args|;
      var nextra := NumExtra(narg);
      var inl, i := FillInline(args);
      recs := recs + [CallRec(SetInsid(id), fl, 0, narg, func, inl)];
      assert recs == old(recs) + [CallHead(e, stale)];
      var count := 1;
      while count <= nextra
        invariant 1 <= count <= nextra + 1 && recs == old(recs) + ([CallHead(e, stale)] + Extras(e, count - 1, stale))
        invariant count <= nextra ==> i == Min(narg, MAX_EXTRA_ARGS * count - 1)
      {
        i := LogExtra(e, id, args, i, count);
        OneMoreExtra(old(recs), e, count, stale);
        count := count + 1;
      }
    }

    method LogExtra(ghost e: Event, id: nat, args: seq<nat>, from: nat, count: nat) returns (i: nat)
      requires e.Call? && Loggable(e) && e.id == id && e.args == args
      requires count >= 1 && from == Min(|args|, MAX_EXTRA_ARGS * count - 1)
      modifies this`recs
      ensures recs == old(recs) + [ExtraAt(e, count, stale)] && i == from + Written(|args|, count)
    {
      var words;
      words, i := FillExtra(args, from, count);
      recs := recs + [ExtraRec(SetInsid(id), stale.flags, count % 256, |args|, words)];
    }

    /** The loop of logCall over the arguments in the call record. */
    method FillInline(args: seq<nat>) returns (inl: InlineArgs, i: nat)
      ensures inl == InlineWords(args, stale) && i == Min(|args|, MAX_INLINE_ARGS)
    {
      inl, i := stale.words[..2], 0;
      while i < Min(|args|, MAX_INLINE_ARGS)
        invariant 0 <= i <= Min(|args|, MAX_INLINE_ARGS) && inl == args[..i] + stale.words[i..2]
      {
        inl := inl[i := args[i]];
        i := i + 1;
      }
    }

    /** The inner loop of logCall over extra record `count`. */
    method FillExtra(args: seq<nat>, from: nat, count: nat) returns (words: ExtraArgs, i: nat)
      requires count >= 1 && from == Min(|args|, MAX_EXTRA_ARGS * count - 1)
      ensures words == ExtraWords(args, count, stale) && i == from + Written(|args|, count)
    {
      words, i := CopyArgs(args, from, ExtraEnd(|args|, count));
    }

    method CopyArgs(args: seq<nat>, from: nat, end: int) returns (words: ExtraArgs, i: nat)
      requires from <= |args| && end <= |args| && end <= from + MAX_EXTRA_ARGS
      ensures i == (if end > from then end else from) && words == Filled(args, from, i - from, stale.words)
    {
      words := stale.words;
      var rec_i := 0;
      i := from;
      while i < end
        invariant i == from + rec_i && (rec_i == 0 || i <= end) && words == Filled(args, from, rec_i, stale.words)
      {
        FillOne(args, from, rec_i, stale.words);
        words := words[rec_i := args[i]];
        rec_i := rec_i + 1;
        i := i + 1;
      }
    }

    method LogRet(flags: Flags, id: nat, narg: nat, func: nat, exits: bool, data: nat)
      requires Loggable(Return(id, flags, func, narg, data)) && !(flags.indirect && exits)
      modifies this`recs
      ensures recs == old(recs) + Encode(Return(id, flags, func, narg, data), stale)
    {
      recs := recs + [ReturnRec(SetInsid(id), flags, (NumExtra(narg) + 1) % 256, narg, func, data)];
    }
  }
}
