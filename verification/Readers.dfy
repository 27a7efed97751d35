/**
 The chain readers (`chain/read.ts`): ERC-1967 slots with their legacy fallbacks, code, beacons and
 optional calls. No fault ever reads as a fact.
 */
module Readers {
  import opened Wrappers
  import opened Rpc
  import AbiString
  import Slots

  /** What a storage word says. */
  datatype Meaning = EmptyWord | AddressWord(address: string) | GarbledWord

  function MeaningOf(word: string): Meaning {
    if Slots.IsEmptySlotWord(word) then EmptyWord
    else match Slots.SlotToAddress(word) case Some(a) => AddressWord(a) case None => GarbledWord
  }

  /** One text request: its text, or the fault it threw. */
  datatype Fetched = Got(text: string) | Threw(fault: Fault)

  /** The chain as the readers reach it: one text request after another, and what a word means. */
  datatype Chain = Chain(fetch: (nat, Request) -> Fetched, meaning: string -> Meaning)

  function TextAnswer(node: Node, id: nat, r: Request): Fetched {
    match Send(node, id, r)
    case Ok(j) => if j.Text? then Got(j.text) else Threw(ResultShape)
    case Err(e) => Threw(e)
  }

  /** The chain behind a provider. */
  function ChainOf(node: Node): Chain {
    Chain((id: nat, r: Request) => TextAnswer(node, id, r), MeaningOf)
  }

  // ---------- the readers ----------

  datatype Label = Implementation | Admin | BeaconSlot

  /** The storage keys of a label: the standard one, then the legacy one where there is one. */
  function SlotsFor(which: Label): (r: seq<Key>)
    ensures 1 <= |r| <= 2
  {
    match which
    case Implementation => [IMPLEMENTATION_SLOT, LEGACY_IMPLEMENTATION_SLOT]
    case Admin => [ADMIN_SLOT, LEGACY_ADMIN_SLOT]
    case BeaconSlot => [BEACON_SLOT]
  }

  const IMPLEMENTATION_SLOT: Key := 0
  const LEGACY_IMPLEMENTATION_SLOT: Key := 1
  const ADMIN_SLOT: Key := 2
  const LEGACY_ADMIN_SLOT: Key := 3
  const BEACON_SLOT: Key := 4

  const UPGRADE_INTERFACE_VERSION: Key := 5
  const OWNER: Key := 6
  const IMPLEMENTATION: Key := 7

  function CodeRequest(a: string): Request { Request(GetCode, Latest, a, 0) }
  function SlotRequest(a: string, key: Key): Request { Request(GetStorageAt, Latest, a, key) }
  function CallRequest(a: string, selector: Key): Request { Request(EthCall, Latest, a, selector) }

  /** A value or the fault that was thrown, and the requests made, numbered from the first one's id. */
  datatype Read<+T> = Read(value: Result<T, Fault>, trips: seq<Request>)

  predicate IsEmptyCode(code: string) {
    (if |code| >= 2 && code[0] == '0' && code[1] == 'x' then code[2..] else code) == ""
  }

  function HasCode(c: Chain, id: nat, a: string): Read<bool> {
    match c.fetch(id, CodeRequest(a))
    case Got(code) => Read(Ok(!IsEmptyCode(code)), [CodeRequest(a)])
    case Threw(e) => Read(Err(e), [CodeRequest(a)])
  }

  /** The first word of some slots that is not empty, if there is one. */
  datatype Word = NoWord | OneWord(word: string) | WordFault(fault: Fault)

  datatype WordRead = WordRead(word: Word, trips: seq<Request>)

  /** From the slot `i` on; its request is number `id + i`. */
  function SlotWord(c: Chain, id: nat, a: string, slots: seq<Key>, i: nat): (r: WordRead)
    requires i <= |slots|
    ensures |r.trips| <= |slots| - i
    decreases |slots| - i
  {
    if i == |slots| then WordRead(NoWord, [])
    else
      var request := SlotRequest(a, slots[i]);
      match c.fetch(id + i, request)
      case Threw(e) => WordRead(WordFault(e), [request])
      case Got(word) =>
        if c.meaning(word) != EmptyWord then WordRead(OneWord(word), [request])
        else
          var rest := SlotWord(c, id, a, slots, i + 1);
          WordRead(rest.word, [request] + rest.trips)
  }

  /** The address behind a label, if its slots are not all empty. */
  datatype Found = Nothing | Found(address: string) | Failed(fault: Fault)

  datatype LabelRead = LabelRead(found: Found, trips: seq<Request>)

  function Addressed(c: Chain, word: Word): Found {
    match word
    case NoWord => Nothing
    case WordFault(e) => Failed(e)
    case OneWord(text) => (match c.meaning(text) case AddressWord(address) => Found(address) case _ => Failed(SlotMalformed))
  }

  function LabelAddress(c: Chain, id: nat, a: string, which: Label): (r: LabelRead)
    ensures |r.trips| <= |SlotsFor(which)|
  {
    var read := SlotWord(c, id, a, SlotsFor(which), 0);
    LabelRead(Addressed(c, read.word), read.trips)
  }

  /** What the reader of a label answers for empty slots: the zero address for the admin, a fault for the others. */
  function WhenEmpty(which: Label): Result<string, Fault> {
    if which.Admin? then Ok(Slots.ZeroAddress()) else Err(NotFound)
  }

  /** `readImplementationAddress`, `readAdminAddress` and `readBeaconAddress`. */
  function ReadLabel(c: Chain, id: nat, a: string, which: Label): Read<string> {
    var read := LabelAddress(c, id, a, which);
    match read.found
    case Failed(e) => Read(Err(e), read.trips)
    case Nothing => Read(WhenEmpty(which), read.trips)
    case Found(address) => Read(Ok(address), read.trips)
  }

  datatype ProxySlots = NoCode | Code(found: map<Label, string>)

  /** The labels read so far, or the fault that stopped the loop. */
  datatype LabelsSoFar = SoFar(found: map<Label, string>, trips: seq<Request>) | Stopped(fault: Fault, trips: seq<Request>)

  /** `found[label] = …`, after one more read. */
  function Extended(found: map<Label, string>, trips: seq<Request>, which: Label, read: LabelRead): LabelsSoFar {
    match read.found
    case Failed(e) => Stopped(e, trips + read.trips)
    case Nothing => SoFar(found, trips + read.trips)
    case Found(address) => SoFar(found[which := address], trips + read.trips)
  }

  /** One label's read, from the request of that number on. */
  type LabelReader = (nat, Label) -> LabelRead

  function ReaderOf(c: Chain, a: string): LabelReader {
    (id: nat, which: Label) => LabelAddress(c, id, a, which)
  }

  /** The loop of `readProxySlots` over the first `n` labels. */
  function LabelsRead(read: LabelReader, id: nat, labels: seq<Label>, n: nat): LabelsSoFar
    requires n <= |labels|
  {
    if n == 0 then SoFar(map[], [])
    else match LabelsRead(read, id, labels, n - 1)
      case Stopped(e, trips) => Stopped(e, trips)
      case SoFar(found, trips) => Extended(found, trips, labels[n - 1], read(id + |trips|, labels[n - 1]))
  }

  function ReadProxySlots(c: Chain, id: nat, a: string, labels: seq<Label>): Read<ProxySlots> {
    var code := HasCode(c, id, a);
    match code.value
    case Err(e) => Read(Err(e), code.trips)
    case Ok(false) => Read(Ok(NoCode), code.trips)
    case Ok(true) =>
      match LabelsRead(ReaderOf(c, a), id + 1, Distinct(labels), |Distinct(labels)|)
      case Stopped(e, trips) => Read(Err(e), code.trips + trips)
      case SoFar(found, trips) => Read(Ok(Code(found)), code.trips + trips)
  }

  datatype OptionalCall = Data(data: string) | NoAnswer(because: Diagnosis)

  /** `tvmCallOptional`: the one reader that turns a node error into an answer. */
  function TvmCallOptional(c: Chain, id: nat, a: string, selector: Key): Read<OptionalCall> {
    var request := CallRequest(a, selector);
    match c.fetch(id, request)
    case Got(data) => Read(Ok(Data(data)), [request])
    case Threw(e) =>
      if e.RpcError? && IsProbeOutcome(e.diagnosis) then Read(Ok(NoAnswer(e.diagnosis)), [request])
      else Read(Err(e), [request])
  }

  /** `readUpgradeInterfaceVersion`: None when nothing answered, or the answer is not a string. */
  function ReadUpgradeInterfaceVersion(c: Chain, id: nat, a: string): Read<Option<seq<AbiString.Scalar>>> {
    var call := TvmCallOptional(c, id, a, UPGRADE_INTERFACE_VERSION);
    match call.value
    case Err(e) => Read(Err(e), call.trips)
    case Ok(NoAnswer(_)) => Read(Ok(None), call.trips)
    case Ok(Data(data)) => Read(Ok(if HexData(data) then AbiString.Decode(data[2..]) else None), call.trips)
  }

  function LooksLikeProxyAdmin(c: Chain, id: nat, a: string): Read<bool> {
    var call := TvmCallOptional(c, id, a, OWNER);
    match call.value
    case Err(e) => Read(Err(e), call.trips)
    case Ok(NoAnswer(_)) => Read(Ok(false), call.trips)
    case Ok(Data(data)) => Read(Ok(Slots.LooksLikeSlotAddressWord(data)), call.trips)
  }

  datatype BeaconRead = NoCodeAtBeacon | CallDidNotAnswer | AnswerIsNotAnAddress | AnsweredBy(address: string)

  function ReadBeaconImplementation(c: Chain, id: nat, a: string): Read<BeaconRead> {
    var code := HasCode(c, id, a);
    match code.value
    case Err(e) => Read(Err(e), code.trips)
    case Ok(false) => Read(Ok(NoCodeAtBeacon), code.trips)
    case Ok(true) =>
      var call := TvmCallOptional(c, id + 1, a, IMPLEMENTATION);
      var trips := code.trips + call.trips;
      match call.value
      case Err(e) => Read(Err(e), trips)
      case Ok(NoAnswer(_)) => Read(Ok(CallDidNotAnswer), trips)
      case Ok(Data(data)) =>
        match Slots.SlotToAddress(data)
        case None => Read(Ok(AnswerIsNotAnAddress), trips)
        case Some(address) => Read(Ok(AnsweredBy(address)), trips)
  }

  // ---------- no fault reads as a fact ----------

  /** Every trip was answered. */
  ghost predicate AllFetched(c: Chain, id: nat, trips: seq<Request>) {
    forall k | 0 <= k < |trips| :: c.fetch(id + k, trips[k]).Got?
  }

  /** A call that was not answered with data got one of the two probe outcomes. */
  ghost predicate Probed(c: Chain, id: nat, r: Request) {
    var got := c.fetch(id, r);
    r.procedure.EthCall? && got.Threw? && got.fault.RpcError? && IsProbeOutcome(got.fault.diagnosis)
  }

  ghost predicate AllProbed(c: Chain, id: nat, trips: seq<Request>) {
    forall k | 0 <= k < |trips| :: c.fetch(id + k, trips[k]).Got? || Probed(c, id + k, trips[k])
  }

  lemma FetchedInTwo(c: Chain, id: nat, s: seq<Request>, t: seq<Request>)
    requires AllFetched(c, id, s) && AllFetched(c, id + |s|, t)
    ensures AllFetched(c, id, s + t)
  {
    forall k | 0 <= k < |s + t| ensures c.fetch(id + k, (s + t)[k]).Got? {
      if k >= |s| { assert c.fetch((id + |s|) + (k - |s|), t[k - |s|]).Got?; }
    }
  }

  lemma {:induction false} WordIsFetched(c: Chain, id: nat, a: string, slots: seq<Key>, i: nat)
    requires i <= |slots| && !SlotWord(c, id, a, slots, i).word.WordFault?
    ensures AllFetched(c, id + i, SlotWord(c, id, a, slots, i).trips)
    decreases |slots| - i
  {
    if i < |slots| {
      var request := SlotRequest(a, slots[i]);
      if c.meaning(c.fetch(id + i, request).text) == EmptyWord {
        WordIsFetched(c, id, a, slots, i + 1);
        FetchedInTwo(c, id + i, [request], SlotWord(c, id, a, slots, i + 1).trips);
      }
    }
  }

  lemma LabelIsFetched(c: Chain, id: nat, a: string, which: Label)
    requires !LabelAddress(c, id, a, which).found.Failed?
    ensures AllFetched(c, id, LabelAddress(c, id, a, which).trips)
  {
    WordIsFetched(c, id, a, SlotsFor(which), 0);
  }

  /** A label reader whose trips are all answered when it does not fail. */
  ghost predicate ReadsFetched(c: Chain, read: LabelReader) {
    forall id: nat, which: Label :: !read(id, which).found.Failed? ==> AllFetched(c, id, read(id, which).trips)
  }

  lemma {:induction false} LabelsAreFetched(c: Chain, read: LabelReader, id: nat, labels: seq<Label>, n: nat)
    requires n <= |labels| && LabelsRead(read, id, labels, n).SoFar? && ReadsFetched(c, read)
    ensures AllFetched(c, id, LabelsRead(read, id, labels, n).trips)
  {
    if n > 0 {
      var trips := LabelsRead(read, id, labels, n - 1).trips;
      LabelsAreFetched(c, read, id, labels, n - 1);
      FetchedInTwo(c, id, trips, read(id + |trips|, labels[n - 1]).trips);
    }
  }

  /** The slot and code readers answer only when every trip did. */
  lemma SlotReadersAreSound(c: Chain, id: nat, a: string, which: Label, labels: seq<Label>)
    ensures HasCode(c, id, a).value.Ok? ==> AllFetched(c, id, HasCode(c, id, a).trips)
    ensures ReadLabel(c, id, a, which).value.Ok? ==> AllFetched(c, id, ReadLabel(c, id, a, which).trips)
    ensures ReadProxySlots(c, id, a, labels).value.Ok? ==> AllFetched(c, id, ReadProxySlots(c, id, a, labels).trips)
  {
    if !LabelAddress(c, id, a, which).found.Failed? { LabelIsFetched(c, id, a, which); }
    if ReadProxySlots(c, id, a, labels).value.Ok? { ProxySlotsAreFetched(c, id, a, labels); }
  }

  lemma ProxySlotsAreFetched(c: Chain, id: nat, a: string, labels: seq<Label>)
    requires ReadProxySlots(c, id, a, labels).value.Ok?
    ensures AllFetched(c, id, ReadProxySlots(c, id, a, labels).trips)
  {
    var once, read := Distinct(labels), ReaderOf(c, a);
    if HasCode(c, id, a).value == Ok(true) {
      forall i: nat, which: Label | !read(i, which).found.Failed? ensures AllFetched(c, i, read(i, which).trips) {
        LabelIsFetched(c, i, a, which);
      }
      LabelsAreFetched(c, read, id + 1, once, |once|);
      FetchedInTwo(c, id, [CodeRequest(a)], LabelsRead(read, id + 1, once, |once|).trips);
    }
  }

  lemma CallIsSound(c: Chain, id: nat, a: string, selector: Key)
    ensures TvmCallOptional(c, id, a, selector).value.Ok? ==> AllProbed(c, id, TvmCallOptional(c, id, a, selector).trips)
  {
  }

  lemma VersionIsSound(c: Chain, id: nat, a: string)
    ensures ReadUpgradeInterfaceVersion(c, id, a).value.Ok? ==> AllProbed(c, id, ReadUpgradeInterfaceVersion(c, id, a).trips)
  {
  }

  lemma AdminProbeIsSound(c: Chain, id: nat, a: string)
    ensures LooksLikeProxyAdmin(c, id, a).value.Ok? ==> AllProbed(c, id, LooksLikeProxyAdmin(c, id, a).trips)
  {
  }

  lemma BeaconReadIsSound(c: Chain, id: nat, a: string)
    ensures ReadBeaconImplementation(c, id, a).value.Ok? ==> AllProbed(c, id, ReadBeaconImplementation(c, id, a).trips)
  {
  }

  /** The probes too, except that the call itself may have been reverted or found no contract. */
  lemma ProbesAreSound(c: Chain, id: nat, a: string, selector: Key)
    ensures TvmCallOptional(c, id, a, selector).value.Ok? ==> AllProbed(c, id, TvmCallOptional(c, id, a, selector).trips)
    ensures ReadUpgradeInterfaceVersion(c, id, a).value.Ok? ==> AllProbed(c, id, ReadUpgradeInterfaceVersion(c, id, a).trips)
    ensures LooksLikeProxyAdmin(c, id, a).value.Ok? ==> AllProbed(c, id, LooksLikeProxyAdmin(c, id, a).trips)
    ensures ReadBeaconImplementation(c, id, a).value.Ok? ==> AllProbed(c, id, ReadBeaconImplementation(c, id, a).trips)
  {
    CallIsSound(c, id, a, selector);
    VersionIsSound(c, id, a);
    AdminProbeIsSound(c, id, a);
    BeaconReadIsSound(c, id, a);
  }

  /** What an answered trip means at the node: a JSON-RPC result of the method's shape. */
  lemma FetchedIsAnswered(node: Node, id: nat, r: Request)
    ensures ChainOf(node).fetch(id, r).Got? ==> Answered(node, id, r)
    ensures Probed(ChainOf(node), id, r) ==> ProbeAnswered(node, id, r)
  {
    SendIsSound(node, id, r);
  }

  /**
   Whatever the node and the transport do, a reader that answers had every round trip answered by a
   result of the right shape or, for the `eth_call` probe alone, by a revert or an absent contract.
   */
  lemma NoFaultReadsAsAFact(node: Node, id: nat, trips: seq<Request>, k: nat)
    requires k < |trips|
    ensures AllFetched(ChainOf(node), id, trips) ==> Answered(node, id + k, trips[k])
    ensures AllProbed(ChainOf(node), id, trips) ==> Answered(node, id + k, trips[k]) || ProbeAnswered(node, id + k, trips[k])
  {
    FetchedIsAnswered(node, id + k, trips[k]);
  }

  // ---------- what it costs ----------

  function Cost(labels: seq<Label>, n: nat): nat
    requires n <= |labels|
  {
    if n == 0 then 0 else Cost(labels, n - 1) + |SlotsFor(labels[n - 1])|
  }

  lemma {:induction false} LabelsCost(read: LabelReader, id: nat, labels: seq<Label>, n: nat)
    requires n <= |labels| && forall i: nat, which: Label :: |read(i, which).trips| <= |SlotsFor(which)|
    ensures |LabelsRead(read, id, labels, n).trips| <= Cost(labels, n)
  {
    if n > 0 { LabelsCost(read, id, labels, n - 1); }
  }

  lemma AtMostThree(r: seq<Label>)
    requires forall i, j | 0 <= i < j < |r| :: r[i] != r[j]
    ensures |r| <= 3 && Cost(r, |r|) <= 5
  {
    if |r| >= 4 { NotFour(r[0], r[1], r[2], r[3]); }
    if |r| >= 1 { assert Cost(r, 1) == Cost(r, 0) + |SlotsFor(r[0])|; }
    if |r| >= 2 { assert Cost(r, 2) == Cost(r, 1) + |SlotsFor(r[1])|; }
    if |r| >= 3 { assert Cost(r, 3) == Cost(r, 2) + |SlotsFor(r[2])|; }
  }

  lemma NotFour(x: Label, y: Label, z: Label, w: Label)
    ensures x == y || x == z || x == w || y == z || y == w || z == w
  {
  }

  /** One request for an address without code, and never more than six. */
  lemma ProxySlotsCost(c: Chain, id: nat, a: string, labels: seq<Label>)
    ensures var read := ReadProxySlots(c, id, a, labels);
            1 <= |read.trips| <= 6 && (read.value == Ok(NoCode) ==> |read.trips| == 1)
  {
    LabelsCost(ReaderOf(c, a), id + 1, Distinct(labels), |Distinct(labels)|);
    AtMostThree(Distinct(labels));
  }

  // ---------- the one-pass read agrees with the per-slot readers ----------

  /** The chain does not change while it is read: an answer depends on the request alone. */
  ghost predicate Fixed(c: Chain) {
    forall i: nat, j: nat, r: Request :: c.fetch(i, r) == c.fetch(j, r)
  }

  lemma FixedNode(node: Node)
    requires forall i: nat, j: nat, r: Request :: node(i, r) == node(j, r)
    ensures Fixed(ChainOf(node))
  {
    forall i: nat, j: nat, r: Request ensures TextAnswer(node, i, r) == TextAnswer(node, j, r) {
      assert node(i, r) == node(j, r);
    }
  }

  lemma {:induction false} FixedWord(c: Chain, id: nat, at: nat, a: string, slots: seq<Key>, i: nat)
    requires Fixed(c) && i <= |slots|
    ensures SlotWord(c, id, a, slots, i) == SlotWord(c, at, a, slots, i)
    decreases |slots| - i
  {
    if i < |slots| {
      assert c.fetch(id + i, SlotRequest(a, slots[i])) == c.fetch(at + i, SlotRequest(a, slots[i]));
      FixedWord(c, id, at, a, slots, i + 1);
    }
  }

  /** A map of labels says of one of them what its reader finds. */
  ghost predicate Says(found: map<Label, string>, which: Label, f: Found) {
    f == if which in found then Found(found[which]) else Nothing
  }

  lemma {:induction false} LabelsFindOnly(read: LabelReader, id: nat, labels: seq<Label>, n: nat, l: Label)
    requires n <= |labels| && LabelsRead(read, id, labels, n).SoFar?
    requires forall k | 0 <= k < n :: labels[k] != l
    ensures l !in LabelsRead(read, id, labels, n).found
  {
    if n > 0 { LabelsFindOnly(read, id, labels, n - 1, l); }
  }

  lemma {:induction false} LabelsAgree(read: LabelReader, id: nat, at: nat, labels: seq<Label>, n: nat, k: nat)
    requires forall i: nat, j: nat, which: Label :: read(i, which) == read(j, which)
    requires k < n <= |labels| && LabelsRead(read, id, labels, n).SoFar?
    requires forall i, j | 0 <= i < j < |labels| :: labels[i] != labels[j]
    ensures Says(LabelsRead(read, id, labels, n).found, labels[k], read(at, labels[k]).found)
  {
    if k == n - 1 {
      LabelsFindOnly(read, id, labels, n - 1, labels[k]);
      assert read(id + |LabelsRead(read, id, labels, n - 1).trips|, labels[k]) == read(at, labels[k]);
    } else {
      LabelsAgree(read, id, at, labels, n - 1, k);
    }
  }

  /** The fetch itself never reports "not found", and a word that is not empty is not the zero address. */
  ghost predicate Sensible(c: Chain) {
    && (forall id: nat, r: Request :: c.fetch(id, r) != Threw(NotFound))
    && (forall word: string :: c.meaning(word) != AddressWord(Slots.ZeroAddress()))
  }

  lemma ProvidersAreSensible(node: Node)
    ensures Sensible(ChainOf(node))
  {
    forall word: string ensures MeaningOf(word) != AddressWord(Slots.ZeroAddress()) {
      if !Slots.IsEmptySlotWord(word) && Slots.SlotToAddress(word).Some? { Slots.NonEmptyIsNotZero(word); }
    }
  }

  lemma {:induction false} WordFaults(c: Chain, id: nat, a: string, slots: seq<Key>, i: nat)
    requires Sensible(c) && i <= |slots|
    ensures SlotWord(c, id, a, slots, i).word != WordFault(NotFound)
    decreases |slots| - i
  {
    if i < |slots| { WordFaults(c, id, a, slots, i + 1); }
  }

  /** Each reader tells an empty label from every address and from every other fault. */
  lemma ReaderTells(c: Chain, id: nat, a: string, which: Label)
    requires Sensible(c)
    ensures LabelAddress(c, id, a, which).found.Nothing? <==> ReadLabel(c, id, a, which).value == WhenEmpty(which)
    ensures LabelAddress(c, id, a, which).found.Found? ==>
              ReadLabel(c, id, a, which).value == Ok(LabelAddress(c, id, a, which).found.address)
  {
    WordFaults(c, id, a, SlotsFor(which), 0);
  }

  lemma ChainAgrees(c: Chain, id: nat, at: nat, a: string, labels: seq<Label>, which: Label)
    requires Fixed(c) && Sensible(c) && which in labels
    requires var read := ReadProxySlots(c, id, a, labels).value; read.Ok? && read.value.Code?
    ensures var found := ReadProxySlots(c, id, a, labels).value.value.found;
            var reader := ReadLabel(c, at, a, which).value;
            && (which !in found <==> reader == WhenEmpty(which))
            && (which in found ==> reader == Ok(found[which]))
  {
    var once := Distinct(labels);
    var k :| 0 <= k < |once| && once[k] == which;
    var read := ReaderOf(c, a);
    forall i: nat, j: nat, l: Label ensures read(i, l) == read(j, l) { FixedWord(c, i, j, a, SlotsFor(l), 0); }
    LabelsAgree(read, id + 1, at, once, |once|, k);
    ReaderTells(c, at, a, which);
  }

  /**
   On a chain that stands still, the one-pass read and the per-slot reader of every label asked for
   agree: a label is missing exactly when its reader finds nothing, and otherwise both give its address.
   */
  lemma OnePassAgrees(node: Node, id: nat, at: nat, a: string, labels: seq<Label>, which: Label)
    requires forall i: nat, j: nat, r: Request :: node(i, r) == node(j, r)
    requires which in labels
    requires var read := ReadProxySlots(ChainOf(node), id, a, labels).value; read.Ok? && read.value.Code?
    ensures var found := ReadProxySlots(ChainOf(node), id, a, labels).value.value.found;
            var reader := ReadLabel(ChainOf(node), at, a, which).value;
            && (which !in found <==> reader == WhenEmpty(which))
            && (which in found ==> reader == Ok(found[which]))
  {
    FixedNode(node);
    ProvidersAreSensible(node);
    ChainAgrees(ChainOf(node), id, at, a, labels, which);
  }

  /** The loop stops at the first label whose read fails, with its fault. */
  lemma {:induction false} LabelsStopIff(read: LabelReader, id: nat, at: nat, labels: seq<Label>, n: nat)
    requires forall i: nat, j: nat, which: Label :: read(i, which) == read(j, which)
    requires n <= |labels|
    ensures LabelsRead(read, id, labels, n).Stopped? <==> exists k :: 0 <= k < n && read(at, labels[k]).found.Failed?
    ensures LabelsRead(read, id, labels, n).Stopped? ==>
              exists k :: 0 <= k < n && read(at, labels[k]).found == Failed(LabelsRead(read, id, labels, n).fault)
  {
    if n > 0 {
      LabelsStopIff(read, id, at, labels, n - 1);
      var before := LabelsRead(read, id, labels, n - 1);
      assert read(id + |before.trips|, labels[n - 1]) == read(at, labels[n - 1]);
    }
  }

  /** A label's reader faults, and not because it found nothing. */
  ghost predicate ReaderFaults(c: Chain, at: nat, a: string, which: Label) {
    var value := ReadLabel(c, at, a, which).value;
    value.Err? && value.error != NotFound
  }

  lemma FaultsTell(c: Chain, at: nat, a: string, which: Label)
    requires Sensible(c)
    ensures ReaderFaults(c, at, a, which) <==> LabelAddress(c, at, a, which).found.Failed?
    ensures ReaderFaults(c, at, a, which) ==> LabelAddress(c, at, a, which).found == Failed(ReadLabel(c, at, a, which).value.error)
  {
    WordFaults(c, at, a, SlotsFor(which), 0);
  }

  lemma ChainFaults(c: Chain, id: nat, at: nat, a: string, labels: seq<Label>)
    requires Fixed(c) && Sensible(c)
    ensures var read := ReadProxySlots(c, id, a, labels).value;
            var code := HasCode(c, at, a).value;
            read.Err? <==> code.Err? || (code == Ok(true) && exists which <- labels :: ReaderFaults(c, at, a, which))
    ensures var read := ReadProxySlots(c, id, a, labels).value;
            read.Err? ==>
              || HasCode(c, at, a).value == Err(read.error)
              || exists which <- labels :: ReaderFaults(c, at, a, which) && ReadLabel(c, at, a, which).value == Err(read.error)
  {
    var once, read := Distinct(labels), ReaderOf(c, a);
    assert c.fetch(id, CodeRequest(a)) == c.fetch(at, CodeRequest(a));
    forall i: nat, j: nat, l: Label ensures read(i, l) == read(j, l) { FixedWord(c, i, j, a, SlotsFor(l), 0); }
    LabelsStopIff(read, id + 1, at, once, |once|);
    forall which: Label
      ensures ReaderFaults(c, at, a, which) <==> read(at, which).found.Failed?
      ensures ReaderFaults(c, at, a, which) ==> read(at, which).found == Failed(ReadLabel(c, at, a, which).value.error)
    {
      FaultsTell(c, at, a, which);
    }
    assert forall which: Label :: which in labels <==> exists k :: 0 <= k < |once| && once[k] == which;
  }

  /**
   On a chain that stands still, the one-pass read faults exactly when the code read does, or there is
   code and the reader of some label asked for faults for another reason than finding nothing; and it
   faults as that read does.
   */
  lemma OnePassFaultsIff(node: Node, id: nat, at: nat, a: string, labels: seq<Label>)
    requires forall i: nat, j: nat, r: Request :: node(i, r) == node(j, r)
    ensures var read := ReadProxySlots(ChainOf(node), id, a, labels).value;
            var code := HasCode(ChainOf(node), at, a).value;
            read.Err? <==> code.Err? || (code == Ok(true) && exists which <- labels :: ReaderFaults(ChainOf(node), at, a, which))
    ensures var read := ReadProxySlots(ChainOf(node), id, a, labels).value;
            read.Err? ==>
              || HasCode(ChainOf(node), at, a).value == Err(read.error)
              || exists which <- labels ::
                   ReaderFaults(ChainOf(node), at, a, which) && ReadLabel(ChainOf(node), at, a, which).value == Err(read.error)
  {
    FixedNode(node);
    ProvidersAreSensible(node);
    ChainFaults(ChainOf(node), id, at, a, labels);
  }

  // ---------- the loops ----------

  /** The slot read at `i`, after these trips: it answers, or the next one is read. */
  lemma OneMoreSlot(c: Chain, id: nat, a: string, slots: seq<Key>, i: nat, trips: seq<Request>)
    requires i < |slots|
    ensures var request := SlotRequest(a, slots[i]);
            var read := SlotWord(c, id, a, slots, i);
            match c.fetch(id + i, request)
            case Threw(e) => read.word == WordFault(e) && trips + read.trips == trips + [request]
            case Got(word) =>
              if c.meaning(word) != EmptyWord then read.word == OneWord(word) && trips + read.trips == trips + [request]
              else
                var rest := SlotWord(c, id, a, slots, i + 1);
                read.word == rest.word && trips + read.trips == (trips + [request]) + rest.trips
  {
  }

  /** `readSlotWithFallback`. */
  method ReadSlotWithFallback(c: Chain, id: nat, a: string, slots: seq<Key>) returns (read: WordRead)
    ensures read == SlotWord(c, id, a, slots, 0)
  {
    var trips: seq<Request> := [];
    for i := 0 to |slots|
      invariant SlotWord(c, id, a, slots, 0).word == SlotWord(c, id, a, slots, i).word
      invariant SlotWord(c, id, a, slots, 0).trips == trips + SlotWord(c, id, a, slots, i).trips
    {
      var request := SlotRequest(a, slots[i]);
      OneMoreSlot(c, id, a, slots, i, trips);
      trips := trips + [request];
      match c.fetch(id + i, request) {
        case Threw(e) => return WordRead(WordFault(e), trips);
        case Got(word) => if c.meaning(word) != EmptyWord { return WordRead(OneWord(word), trips); }
      }
    }
    read := WordRead(NoWord, trips);
  }

  /** The labels of `readProxySlots`, one after another. */
  method ReadLabels(reader: LabelReader, id: nat, labels: seq<Label>) returns (read: LabelsSoFar)
    ensures read == LabelsRead(reader, id, labels, |labels|)
  {
    var found: map<Label, string> := map[];
    var trips: seq<Request> := [];
    for i := 0 to |labels|
      invariant LabelsRead(reader, id, labels, i) == SoFar(found, trips)
    {
      var one := reader(id + |trips|, labels[i]);
      trips := trips + one.trips;
      match one.found {
        case Failed(e) =>
          LabelsStop(reader, id, labels, i + 1);
          return Stopped(e, trips);
        case Nothing =>
        case Found(address) => found := found[labels[i] := address];
      }
    }
    read := SoFar(found, trips);
  }

  lemma {:induction false} LabelsStop(reader: LabelReader, id: nat, labels: seq<Label>, n: nat)
    requires n <= |labels| && LabelsRead(reader, id, labels, n).Stopped?
    ensures LabelsRead(reader, id, labels, |labels|) == LabelsRead(reader, id, labels, n)
    decreases |labels| - n
  {
    if n < |labels| { LabelsStop(reader, id, labels, n + 1); }
  }
}
