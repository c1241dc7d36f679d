/** Substitute printers: no printer's substitute has a substitute, as long as checks and writes do not interleave. */
module PrinterFallbacks {
  import opened Common
  import opened PrintJobs

  type Printers = map<PrinterId, Printer>

  /** The check before a write; id is None for a printer about to be created. */
  predicate Allowed(printers: Printers, id: Option<PrinterId>, target: Option<PrinterId>) {
    target.None? ||
    (&& target != id
     && target.value in printers && printers[target.value].isActive && printers[target.value].fallback.None?
     && (id.Some? ==> !IsFallback(printers, id.value)))
  }

  predicate IsFallback(printers: Printers, id: PrinterId) {
    exists p :: p in printers && printers[p].fallback == Some(id)
  }

  function Assign(printers: Printers, id: PrinterId, target: Option<PrinterId>): Printers {
    if id in printers then printers[id := printers[id].(fallback := target)] else printers
  }

  ghost predicate NoChains(printers: Printers) {
    forall p :: p in printers && printers[p].fallback.Some? ==>
      var f := printers[p].fallback.value; f != p && f in printers && printers[f].fallback.None?
  }

  method UpdatePrinter(printers: Printers, id: PrinterId, target: Option<PrinterId>) returns (r: Option<Printers>)
    ensures r.Some? <==> id in printers && Allowed(printers, Some(id), target)
    ensures r.Some? ==> r.value == Assign(printers, id, target)
  {
    if id !in printers { return None; }
    if target.Some? {
      if target.value == id || target.value !in printers || !printers[target.value].isActive || printers[target.value].fallback.Some? { return None; }
      if exists p :: p in printers && printers[p].fallback == Some(id) { return None; }
    }
    return Some(printers[id := printers[id].(fallback := target)]);
  }

  datatype Change = AddPrinter(id: PrinterId, printer: Printer) | SetFallback(id: PrinterId, target: Option<PrinterId>) | SetActive(id: PrinterId, active: bool)

  function Next(printers: Printers, c: Change): Printers {
    match c
    case AddPrinter(id, p) => if id in printers || !Allowed(printers, None, p.fallback) || p.fallback == Some(id) then printers else printers[id := p]
    case SetFallback(id, target) => if Allowed(printers, Some(id), target) then Assign(printers, id, target) else printers
    case SetActive(id, active) => if id in printers then printers[id := printers[id].(isActive := active)] else printers
  }

  function Run(printers: Printers, changes: seq<Change>): Printers
    decreases |changes|
  {
    if changes == [] then printers else Run(Next(printers, changes[0]), changes[1..])
  }

  /** A write keeps chains away exactly if what the check looked at still holds when it happens. */
  lemma AssignKeepsNoChains(printers: Printers, id: PrinterId, target: Option<PrinterId>)
    requires NoChains(printers) && id in printers
    ensures NoChains(Assign(printers, id, target))
            <==> target.None? || (target != Some(id) && target.value in printers && printers[target.value].fallback.None? && !IsFallback(printers, id))
  {
    var after := Assign(printers, id, target);
    if target.Some? && NoChains(after) && IsFallback(printers, id) {
      var p :| p in printers && printers[p].fallback == Some(id);
      assert after[id].fallback == target && (p != id ==> after[p].fallback == Some(id));
    }
    if target.Some? && NoChains(after) { assert after[id].fallback == target; }
  }

  predicate Working(printers: Printers, target: Option<PrinterId>) {
    target.Some? ==> target.value in printers && printers[target.value].isActive
  }

  /** The check refuses nothing that it need not: a fallback is allowed exactly if it works and makes no chain, for
      a printer of the table as for one that is about to be added. */
  lemma AllowedExactly(printers: Printers, id: PrinterId, target: Option<PrinterId>, added: Printer)
    requires NoChains(printers)
    ensures id in printers ==> (Allowed(printers, Some(id), target) <==> Working(printers, target) && NoChains(Assign(printers, id, target)))
    ensures id !in printers && added.fallback == target ==>
              (Allowed(printers, None, target) && target != Some(id) <==> Working(printers, target) && NoChains(printers[id := added]))
    ensures id !in printers && added.fallback == target ==>
              Next(printers, AddPrinter(id, added)) == if Working(printers, target) && NoChains(printers[id := added]) then printers[id := added] else printers
  {
    if id in printers { AssignKeepsNoChains(printers, id, target); }
    else if added.fallback == target {
      var after := printers[id := added];
      assert after[id].fallback == target;
      if Working(printers, target) && NoChains(after) && target.Some? {
        assert after[target.value].fallback.None?;
        assert after[target.value] == printers[target.value];
      }
    }
  }

  lemma {:induction false} RunsHaveNoChains(printers: Printers, changes: seq<Change>)
    requires NoChains(printers)
    ensures NoChains(Run(printers, changes))
    decreases |changes|
  {
    if changes != [] {
      match changes[0] {
        case AddPrinter(id, p) =>
        case SetFallback(id, target) => if id in printers { AssignKeepsNoChains(printers, id, target); }
        case SetActive(id, active) =>
      }
      RunsHaveNoChains(Next(printers, changes[0]), changes[1..]);
    }
  }

  /** Two updates checked against the same table and written one after the other can build a chain. */
  lemma InterleavedUpdatesCanChain()
    ensures exists printers: Printers ::
      NoChains(printers) && Allowed(printers, Some(0), Some(1)) && Allowed(printers, Some(1), Some(2))
      && !NoChains(Assign(Assign(printers, 0, Some(1)), 1, Some(2)))
  {
    var p := Printer(false, true, None, None, None, None);
    var printers: Printers := map[0 := p, 1 := p, 2 := p];
    var after := Assign(Assign(printers, 0, Some(1)), 1, Some(2));
    assert after[0].fallback == Some(1) && after[1].fallback == Some(2);
  }
}
