/** What changed between two snapshots of one counterparty, and how severe it is. */
module CounterpartyChanges {
  import opened Text

  type Payload = map<string, string>
  datatype Change = Change(before: string, after: string)
  datatype Severity = Info | Attention | High | Critical

  const NAME := "canonical_name"
  const TAX := "tax_id"
  const REGISTRATION := "registration_id"
  const STATUS := "legal_status"

  /** The legal statuses that end a company, in lower case. */
  const CLOSED: set<string> := {"liquidated", "terminated", "not_registered"}

  function Changes(before: Payload, after: Payload): map<string, Change> {
    map f | f in before && f in after && before[f] != after[f] :: Change(before[f], after[f])
  }

  function SeverityOf(changes: map<string, Change>): Severity {
    if STATUS in changes && Lower(changes[STATUS].after) in CLOSED then Critical
    else if TAX in changes || REGISTRATION in changes then High
    else if STATUS in changes || NAME in changes then Attention
    else Info
  }

  /** The shared fields, one by one in sorted order. */
  method Detect(before: Payload, after: Payload, fields: seq<string>)
    returns (changed: map<string, Change>, severity: Severity)
    requires forall f :: f in fields <==> f in before && f in after
    ensures changed == Changes(before, after) && severity == SeverityOf(changed)
  {
    changed := map[];
    var i := 0;
    while i < |fields|
      invariant 0 <= i <= |fields|
      invariant forall f :: f in changed <==> f in fields[..i] && before[f] != after[f]
      invariant forall f | f in changed :: changed[f] == Change(before[f], after[f])
    {
      var f := fields[i];
      if before[f] != after[f] {
        changed := changed[f := Change(before[f], after[f])];
      }
      i := i + 1;
    }
    assert fields[..i] == fields;
    if changed == map[] {
      return changed, Info;
    }
    severity := if STATUS in changed && Lower(changed[STATUS].after) in CLOSED then Critical
                else if TAX in changed || REGISTRATION in changed then High
                else if STATUS in changed || NAME in changed then Attention
                else Info;
  }

  function Apply(p: Payload, changes: map<string, Change>): Payload {
    map f | f in p :: if f in changes then changes[f].after else p[f]
  }

  /** Applying the changes to the earlier payload gives the later one, exactly when both have the same fields. */
  lemma ChangesAreComplete(before: Payload, after: Payload)
    ensures Apply(before, Changes(before, after)) == after <==> before.Keys == after.Keys
    ensures forall f | f in before && f in after :: Apply(before, Changes(before, after))[f] == after[f]
  {
    assert Apply(before, Changes(before, after)).Keys == before.Keys;
  }

  function Replay(p: Payload, history: seq<map<string, Change>>): Payload {
    if history == [] then p else Replay(Apply(p, history[0]), history[1..])
  }

  /** The changes between each payload and the next. */
  function History(payloads: seq<Payload>): seq<map<string, Change>> {
    if |payloads| < 2 then [] else [Changes(payloads[0], payloads[1])] + History(payloads[1..])
  }

  /** Every snapshot of a monitor has the same four fields, so its change events retell all that happened. */
  lemma {:induction false} HistoryRetells(payloads: seq<Payload>)
    requires payloads != [] && forall i | 0 <= i < |payloads| :: payloads[i].Keys == payloads[0].Keys
    ensures Replay(payloads[0], History(payloads)) == payloads[|payloads| - 1]
  {
    if |payloads| > 1 {
      ChangesAreComplete(payloads[0], payloads[1]);
      HistoryRetells(payloads[1..]);
    }
  }

  /** The field is there before and after, with different values. */
  ghost predicate Differs(before: Payload, after: Payload, f: string) {
    f in before && f in after && before[f] != after[f]
  }

  /** How severe it is when one payload follows another: critical exactly if the legal status has become one that ends a
      company, else high if an identifier has changed, else attention if status or name have. */
  lemma SeverityOutcome(before: Payload, after: Payload)
    ensures var changes := Changes(before, after);
            var ended := Differs(before, after, "legal_status")
                         && Lower(after["legal_status"]) in {"liquidated", "terminated", "not_registered"};
            var renamed := Differs(before, after, "tax_id") || Differs(before, after, "registration_id");
            && (forall f :: f in changes <==> Differs(before, after, f))
            && (forall f | f in changes :: changes[f] == Change(before[f], after[f]))
            && (SeverityOf(changes) == Critical <==> ended)
            && (SeverityOf(changes) == High <==> !ended && renamed)
            && (SeverityOf(changes) == Info <==>
                  forall f | f in {"canonical_name", "tax_id", "registration_id", "legal_status"} ::
                    !Differs(before, after, f))
  {
    hide Lower;
    assert forall f | f in {NAME, TAX, REGISTRATION, STATUS} ::
             f in Changes(before, after) <==> Differs(before, after, f);
  }
}
