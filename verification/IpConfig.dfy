/** IP configuration lists (opcd/handler.c): 128 numbered slots, the value rules
    for an entry, and the update sequences that edit a list. */
module IpConfig {
  import opened Common
  import opened OpcText
  import opened AddressBits

  const SLOTS: nat := 128
  const ESSID_MAX: nat := 31

  const CONTINUE: nat := 0
  const START: nat := 1
  const END: nat := 2
  const START_END: nat := 3

  /** An entry of a SetIpConfigList request. The ESSID is the 32-byte field up to
      its NUL, so it is longer than 31 only when there is none. */
  datatype Entry = Entry(number: nat, flag: nat, ip: bv32, mask: bv32, gateway: bv32, ntp: bv32, essid: string)

  type List = s: seq<Option<Entry>> | |s| == SLOTS witness seq(SLOTS, _ => None)

  // ---- Entry values ----------------------------------------------------------

  predicate Unicast(ip: bv32) {
    ip != 0 && ip != 0xFFFF_FFFF && ip & 0xF000_0000 != 0xE000_0000
  }

  predicate Addressable(ip: bv32) {
    Unicast(ip) && ip >> 24 != 127
  }

  predicate Contiguous(m: bv32) {
    m != 0 && !m & (!m + 1) == 0
  }

  const PREFIX_MASKS: set<bv32> := {
    0x8000_0000, 0xC000_0000, 0xE000_0000, 0xF000_0000, 0xF800_0000, 0xFC00_0000, 0xFE00_0000, 0xFF00_0000,
    0xFF80_0000, 0xFFC0_0000, 0xFFE0_0000, 0xFFF0_0000, 0xFFF8_0000, 0xFFFC_0000, 0xFFFE_0000, 0xFFFF_0000,
    0xFFFF_8000, 0xFFFF_C000, 0xFFFF_E000, 0xFFFF_F000, 0xFFFF_F800, 0xFFFF_FC00, 0xFFFF_FE00, 0xFFFF_FF00,
    0xFFFF_FF80, 0xFFFF_FFC0, 0xFFFF_FFE0, 0xFFFF_FFF0, 0xFFFF_FFF8, 0xFFFF_FFFC, 0xFFFF_FFFE, 0xFFFF_FFFF}

  /** The bit trick accepts exactly the prefix masks /1 to /32. */
  lemma ContiguousMasks(m: bv32)
    ensures Contiguous(m) <==> m in PREFIX_MASKS
  {
  }

  datatype Verdict = Fine | BadIp | BadMask | BadGateway | BadNtp | EssidNul | EssidChar | SlotRange | Sequence

  /** The checks on addresses. A host address is neither the subnet's own nor its
      broadcast address; a gateway is in the subnet, except for a single host. */
  function AddressError(ip: bv32, mask: bv32, gateway: bv32, ntp: bv32): Verdict {
    if !Addressable(ip) then BadIp
    else if !Contiguous(mask) then BadMask
    else if mask != 0xFFFF_FFFF && (ip == ip & mask || ip == (ip & mask) | !mask) then BadIp
    else if gateway != 0 &&
            (!Addressable(gateway) || gateway == ip ||
             (mask != 0xFFFF_FFFF && gateway & mask != ip & mask)) then BadGateway
    else if ntp != 0 && !Addressable(ntp) then BadNtp
    else Fine
  }

  /** ipcfg_entry_error */
  function EntryError(e: Entry): Verdict {
    var a := AddressError(e.ip, e.mask, e.gateway, e.ntp);
    if a != Fine then a
    else if |e.essid| > ESSID_MAX then EssidNul
    else if !InCharset(e.essid) then EssidChar
    else Fine
  }

  /** Not 0.0.0.0, not 255.255.255.255, not in 224.0.0.0/4 and not in 127.0.0.0/8. */
  ghost predicate Usable(ip: bv32) {
    && 0 < ip < 0xFFFF_FFFF
    && !(0xE000_0000 <= ip <= 0xEFFF_FFFF) && !(0x7F00_0000 <= ip <= 0x7FFF_FFFF)
  }

  /** The part of the address inside its subnet is neither all zeros nor all ones. */
  ghost predicate HostOf(ip: bv32, mask: bv32) {
    mask == 0xFFFF_FFFF || (ip & !mask != 0 && ip & !mask != !mask)
  }

  /** No bit under the mask differs. */
  ghost predicate SameSubnet(a: bv32, b: bv32, mask: bv32) {
    (a ^ b) & mask == 0
  }

  /** The rules in the order of their causes: a host address, a prefix mask, a host
      of that subnet, a gateway that is unset or another host of the same subnet
      (of any for a single-host mask), and a time server that is unset or usable.
      An entry is accepted exactly if it keeps all of them, and the cause of a
      refusal is the first one broken. */
  lemma AddressRules(ip: bv32, mask: bv32, gw: bv32, ntp: bv32)
    ensures var gate := gw == 0 || (Usable(gw) && gw != ip && (mask == 0xFFFF_FFFF || SameSubnet(gw, ip, mask)));
            AddressError(ip, mask, gw, ntp) ==
              if !Usable(ip) then BadIp
              else if mask !in PREFIX_MASKS then BadMask
              else if !HostOf(ip, mask) then BadIp
              else if !gate then BadGateway
              else if ntp != 0 && !Usable(ntp) then BadNtp
              else Fine
  {
    hide Addressable, Contiguous, Usable, HostOf, SameSubnet;
    UsableIff(ip);
    UsableIff(gw);
    UsableIff(ntp);
    ContiguousMasks(mask);
    HostIff(ip, mask);
    SubnetIff(gw, ip, mask);
  }

  lemma UsableIff(ip: bv32)
    ensures Usable(ip) <==> Addressable(ip)
  {
  }

  lemma HostIff(ip: bv32, mask: bv32)
    ensures HostOf(ip, mask) <==> !(mask != 0xFFFF_FFFF && (ip == ip & mask || ip == (ip & mask) | !mask))
  {
    NoHostBits(ip, mask);
    AllHostBits(ip, mask);
  }

  lemma SubnetIff(a: bv32, b: bv32, mask: bv32)
    ensures SameSubnet(a, b, mask) <==> a & mask == b & mask
  {
    MaskedDifference(a, b, mask);
    NoDifference(a & mask, b & mask);
  }

  /** The slot range, then the values; an entry with address 0 empties its slot
      and its other fields are not looked at. */
  function Check(e: Entry): Verdict {
    if !(1 <= e.number <= SLOTS) then SlotRange
    else if e.ip == 0 then Fine
    else EntryError(e)
  }

  /** What a stored list may hold. */
  ghost predicate Sound(l: List) {
    forall k :: 0 <= k < SLOTS && l[k].Some? ==>
      var e := l[k].value; e.number == k + 1 && e.ip != 0 && EntryError(e) == Fine
  }

  // ---- Editing -----------------------------------------------------------------

  function Update(l: List, e: Entry): List
    requires 1 <= e.number <= SLOTS
  {
    l[e.number - 1 := if e.ip == 0 then None else Some(e)]
  }

  ghost predicate Numbered(us: seq<Entry>) {
    forall i :: 0 <= i < |us| ==> 1 <= us[i].number <= SLOTS
  }

  ghost function UpdateAll(l: List, us: seq<Entry>): List
    requires Numbered(us)
  {
    if us == [] then l else Update(UpdateAll(l, us[..|us| - 1]), us[|us| - 1])
  }

  /** Position of the last update that names slot `k`, or -1. */
  function LastNaming(us: seq<Entry>, k: nat): (i: int)
    ensures -1 <= i < |us| && (i >= 0 ==> us[i].number == k + 1)
    ensures forall j :: i < j < |us| ==> us[j].number != k + 1
  {
    if us == [] then -1
    else if us[|us| - 1].number == k + 1 then |us| - 1
    else LastNaming(us[..|us| - 1], k)
  }

  /** A slot no update names keeps its entry; otherwise the last one that names
      it decides: a list is merged into, never replaced. */
  lemma {:induction false} LastNamedWins(l: List, us: seq<Entry>, k: nat)
    requires Numbered(us) && k < SLOTS
    ensures UpdateAll(l, us)[k] ==
              if LastNaming(us, k) < 0 then l[k]
              else if us[LastNaming(us, k)].ip == 0 then None
              else Some(us[LastNaming(us, k)])
  {
    if us != [] { LastNamedWins(l, us[..|us| - 1], k); }
  }

  lemma {:induction false} UpdateAllConcat(l: List, us: seq<Entry>, vs: seq<Entry>)
    requires Numbered(us) && Numbered(vs)
    ensures Numbered(us + vs) && UpdateAll(l, us + vs) == UpdateAll(UpdateAll(l, us), vs)
  {
    if vs == [] {
      assert us + vs == us;
    } else {
      var n := |vs| - 1;
      assert Numbered(vs[..n]);
      UpdateAllConcat(l, us, vs[..n]);
      assert (us + vs)[..|us + vs| - 1] == us + vs[..n];
    }
  }

  // ---- One request ---------------------------------------------------------------

  /** The locals of the request loop. */
  datatype Work = Work(candidate: List, staging: List, active: bool, committed: bool, err: Verdict)

  function Empty(): (l: List)
    ensures forall k :: 0 <= k < SLOTS ==> l[k] == None
  {
    seq(SLOTS, _ => None)
  }

  /** One iteration; an error ends the loop. */
  function Iterate(w: Work, e: Entry): Work
    requires w.err == Fine
  {
    if Check(e) != Fine then w.(err := Check(e))
    else if e.flag != START && e.flag != START_END && !w.active then w.(err := Sequence)
    else
      var base := if e.flag == START || e.flag == START_END then w.candidate else w.staging;
      var staging := Update(base, e);
      if e.flag == END || e.flag == START_END
      then Work(staging, Empty(), false, true, Fine)
      else w.(staging := staging, active := true)
  }

  function IterateAll(w: Work, es: seq<Entry>): Work {
    if es == [] then w
    else
      var v := IterateAll(w, es[..|es| - 1]);
      if v.err != Fine then v else Iterate(v, es[|es| - 1])
  }

  /** START and any number of continuations: the entries are staged on top of the
      committed list, whatever was staged before. */
  lemma {:induction false} OpenCycle(w: Work, es: seq<Entry>)
    requires w.err == Fine && es != [] && es[0].flag == START && Numbered(es)
    requires forall i :: 0 <= i < |es| ==> Check(es[i]) == Fine
    requires forall i :: 0 < i < |es| ==> es[i].flag == CONTINUE
    ensures IterateAll(w, es) == w.(staging := UpdateAll(w.candidate, es), active := true)
  {
    hide Check;
    var n := |es| - 1;
    if n == 0 {
      assert es[..0] == [];
      assert UpdateAll(w.candidate, es) == Update(w.candidate, es[0]);
    } else {
      OpenCycle(w, es[..n]);
    }
  }

  /** A complete cycle, from START over continuations to END, changes the committed
      list by exactly its own entries, in order. */
  lemma CycleMeans(w: Work, es: seq<Entry>)
    requires w.err == Fine && |es| >= 2 && es[0].flag == START && es[|es| - 1].flag == END && Numbered(es)
    requires forall i :: 0 <= i < |es| ==> Check(es[i]) == Fine
    requires forall i :: 0 < i < |es| - 1 ==> es[i].flag == CONTINUE
    ensures IterateAll(w, es) == Work(UpdateAll(w.candidate, es), Empty(), false, true, Fine)
  {
    hide Check;
    OpenCycle(w, es[..|es| - 1]);
  }

  /** The other requests of one entry: a cycle of its own, and a continuation or an
      end without a start, which is refused and changes nothing. */
  lemma SingleEntry(w: Work, e: Entry)
    requires w.err == Fine && Check(e) == Fine
    ensures e.flag == START_END ==> IterateAll(w, [e]) == Work(Update(w.candidate, e), Empty(), false, true, Fine)
    ensures (e.flag == CONTINUE || e.flag == END) && !w.active ==> IterateAll(w, [e]) == w.(err := Sequence)
  {
    hide Check;
    assert [e][..0] == [];
  }

  // ---- The meaning of update sequences -----------------------------------------------

  /** Complete cycles as one sequence of updates, and the updates of the open
      cycle: what SetIpConfigList is documented to mean. */
  datatype Edits = Edits(done: seq<Entry>, open: Option<seq<Entry>>, err: Verdict)

  function Edit(d: Edits, e: Entry): Edits
    requires d.err == Fine
  {
    if Check(e) != Fine then d.(err := Check(e))
    else match (e.flag, d.open)
      case (_, None) =>
        if e.flag == START_END then d.(done := d.done + [e])
        else if e.flag == START then d.(open := Some([e]))
        else d.(err := Sequence)
      case (_, Some(us)) =>
        if e.flag == START_END then Edits(d.done + [e], None, Fine)
        else if e.flag == START then d.(open := Some([e]))
        else if e.flag == END then Edits(d.done + us + [e], None, Fine)
        else d.(open := Some(us + [e]))
  }

  function EditAll(d: Edits, es: seq<Entry>): Edits {
    if es == [] then d
    else
      var c := EditAll(d, es[..|es| - 1]);
      if c.err != Fine then c else Edit(c, es[|es| - 1])
  }

  /** A request completes a cycle exactly when it adds to the completed updates. */
  lemma {:induction false} CommittedIff(w: Work, d: Edits, es: seq<Entry>)
    requires w.err == d.err == Fine && !w.committed && (w.active <==> d.open.Some?)
    ensures var v, c := IterateAll(w, es), EditAll(d, es);
            && v.err == c.err && (v.active <==> c.open.Some?)
            && |c.done| >= |d.done| && (v.committed <==> |c.done| > |d.done|)
  {
    hide Check;
    if es != [] { CommittedIff(w, d, es[..|es| - 1]); }
  }

  ghost predicate Lawful(us: seq<Entry>) {
    forall i :: 0 <= i < |us| ==> Check(us[i]) == Fine
  }

  /** The staged lists are what the edits mean, starting from `l`. */
  ghost predicate Denotes(l: List, w: Work, d: Edits) {
    && Lawful(d.done) && (d.open.Some? ==> Lawful(d.open.value)) && w.err == d.err
    && w.candidate == UpdateAll(l, d.done)
    && (w.active <==> d.open.Some?)
    && w.staging == if d.open.Some? then UpdateAll(w.candidate, d.open.value) else Empty()
  }

  lemma Append(l: List, us: seq<Entry>, e: Entry)
    requires Lawful(us) && Check(e) == Fine
    ensures Lawful(us + [e]) && Numbered(us + [e]) && UpdateAll(l, us + [e]) == Update(UpdateAll(l, us), e)
  {
    assert (us + [e])[..|us|] == us;
  }

  lemma Complete(l: List, done: seq<Entry>, us: seq<Entry>, e: Entry)
    requires Lawful(done) && Lawful(us) && Check(e) == Fine
    ensures Lawful(done + us + [e]) && Numbered(done + us + [e])
    ensures UpdateAll(l, done + us + [e]) == Update(UpdateAll(UpdateAll(l, done), us), e)
  {
    UpdateAllConcat(l, done, us);
    Append(l, done + us, e);
  }

  lemma IterateDenotes(l: List, w: Work, d: Edits, e: Entry)
    requires Denotes(l, w, d) && w.err == Fine
    ensures Denotes(l, Iterate(w, e), Edit(d, e))
    ensures d.done <= Edit(d, e).done
    ensures Iterate(w, e).committed <==> w.committed || Edit(d, e).done != d.done
  {
    hide EntryError, UpdateAll, Update;
    if Check(e) == Fine {
      Single(w.candidate, e);
      Append(l, d.done, e);
      if d.open.Some? {
        Append(w.candidate, d.open.value, e);
        Complete(l, d.done, d.open.value, e);
      }
    }
  }

  lemma Single(l: List, e: Entry)
    requires Check(e) == Fine
    ensures Lawful([e]) && UpdateAll(l, [e]) == Update(l, e)
  {
    assert [e][..0] == [];
  }

  /** The request loop computes the meaning of the request: the updates of every
      completed cycle, in order, merged into the list it started from, with the
      open cycle staged on top; the first error stops both. */
  lemma {:induction false} RequestDenotes(l: List, w: Work, d: Edits, es: seq<Entry>)
    requires Denotes(l, w, d)
    ensures Denotes(l, IterateAll(w, es), EditAll(d, es))
    ensures d.done <= EditAll(d, es).done
    ensures IterateAll(w, es).committed <==> w.committed || EditAll(d, es).done != d.done
  {
    hide UpdateAll, Lawful, Iterate, Edit;
    if es != [] {
      var n := |es| - 1;
      RequestDenotes(l, w, d, es[..n]);
      if IterateAll(w, es[..n]).err == Fine {
        IterateDenotes(l, IterateAll(w, es[..n]), EditAll(d, es[..n]), es[n]);
      }
    }
  }

  /** Whatever lawful updates are merged into a sound list, it stays sound. */
  lemma {:induction false} UpdatesSound(l: List, us: seq<Entry>)
    requires Sound(l) && Lawful(us)
    ensures Sound(UpdateAll(l, us))
  {
    if us != [] { UpdatesSound(l, us[..|us| - 1]); }
  }

  /** The body of the request loop. */
  method ProcessEntry(w: Work, e: Entry) returns (r: Work)
    requires w.err == Fine
    ensures r == Iterate(w, e)
  {
    hide EntryError;
    r := w;
    if !(1 <= e.number <= SLOTS) { return r.(err := SlotRange); }
    var clear := e.ip == 0;
    var verdict := if clear then Fine else EntryError(e);
    if verdict != Fine { return r.(err := verdict); }
    if e.flag == START || e.flag == START_END {
      r := r.(staging := r.candidate, active := true);
    } else if !r.active {
      return r.(err := Sequence);
    }
    r := r.(staging := r.staging[e.number - 1 := if clear then None else Some(e)]);
    if e.flag == END || e.flag == START_END {
      r := r.(candidate := r.staging, committed := true, active := false, staging := Empty());
    }
  }

  /** The request loop of handle_set_ip_config_list. */
  method Process(w: Work, es: seq<Entry>) returns (r: Work)
    requires w.err == Fine
    ensures r == IterateAll(w, es)
  {
    hide Iterate;
    r := w;
    var i := 0;
    while i < |es|
      invariant 0 <= i <= |es| && r == IterateAll(w, es[..i]) && r.err == Fine
    {
      assert es[..i + 1][..i] == es[..i];
      r := ProcessEntry(r, es[i]);
      if r.err != Fine {
        Stopped(w, es, i + 1);
        return;
      }
      i := i + 1;
    }
    assert es[..i] == es;
  }

  /** After an error the rest of the request is ignored. */
  lemma {:induction false} Stopped(w: Work, es: seq<Entry>, i: nat)
    requires i <= |es| && IterateAll(w, es[..i]).err != Fine
    ensures IterateAll(w, es) == IterateAll(w, es[..i])
  {
    if i == |es| {
      assert es[..i] == es;
    } else {
      assert es[..|es| - 1][..i] == es[..i];
      Stopped(w, es[..|es| - 1], i);
    }
  }
}
