/** Every accepted command keeps what became of documents, private records and reviews. */
module Provenance {
  import opened Types
  import opened Price
  import opened Evidence
  import opened Engine
  import opened Invariants
  import opened Preserve

  // ------------------------------------------------------ documents of a plan

  /** A document bound to the command, its three keys unused before and claimed by the plan. */
  ghost predicate NewDoc(s: State, c: Command, d: Bundle, p: Plan) {
    var h := d.envelope.header;
    && h.docType in RequiredTypes(c.name) && h.batch == c.batch && h.op == c.op
    && DocumentKey(h.document) !in s.pub
    && SourceUseKey(h.issuer, h.sourceDocument) !in s.pub
    && NonceKey(h.issuer, h.nonce) !in s.pub
    && SourceUseKey(h.issuer, h.sourceDocument) in p && p[SourceUseKey(h.issuer, h.sourceDocument)].Some?
    && NonceKey(h.issuer, h.nonce) in p && p[NonceKey(h.issuer, h.nonce)].Some?
    && DocumentKey(h.document) in p && p[DocumentKey(h.document)] == Some(EnvelopeValue(d.envelope))
  }

  /** The documents written by a command: bound, fresh, mutually distinct, of the command's types. */
  ghost predicate NewDocs(s: State, c: Command, docs: seq<Bundle>, p: Plan) {
    && (forall i :: 0 <= i < |docs| ==> NewDoc(s, c, docs[i], p))
    && (forall i, j :: 0 <= i < j < |docs| ==> DocsDiffer(docs[i], docs[j]))
    && (forall d {:trigger DocumentKey(d) in p} :: DocumentKey(d) in p ==>
          exists i :: 0 <= i < |docs| && docs[i].envelope.header.document == d)
    && (forall i, n {:trigger SourceUseKey(i, n) in p} :: SourceUseKey(i, n) in p ==> p[SourceUseKey(i, n)].Some?)
    && (forall i, n {:trigger NonceKey(i, n) in p} :: NonceKey(i, n) in p ==> p[NonceKey(i, n)].Some?)
  }

  lemma {:induction false} DocPlanEntry(docs: seq<Bundle>, n: nat, tx: string, i: nat)
    requires i < n <= |docs|
    requires forall i, j :: 0 <= i < j < n ==> DocsDiffer(docs[i], docs[j])
    ensures var h := docs[i].envelope.header;
            && DocumentKey(h.document) in DocPlan(docs, n, tx)
            && DocPlan(docs, n, tx)[DocumentKey(h.document)] == Some(EnvelopeValue(docs[i].envelope))
  {
    if i < n - 1 {
      assert DocsDiffer(docs[i], docs[n - 1]);
      DocPlanEntry(docs, n - 1, tx, i);
    }
  }

  lemma {:induction false} DocPlanOrigin(docs: seq<Bundle>, n: nat, tx: string, d: Id)
    requires n <= |docs| && DocumentKey(d) in DocPlan(docs, n, tx)
    ensures exists i :: 0 <= i < n && docs[i].envelope.header.document == d
  {
    if docs[n - 1].envelope.header.document != d {
      DocPlanOrigin(docs, n - 1, tx, d);
    }
  }

  /** One document of a gathered command: unused before, claimed now. */
  lemma NewDocAt(env: Env, s: State, c: Command, docs: seq<Bundle>, tx: string, i: nat)
    requires i < |docs| && DocOk(env, s, c, docs[i]) && forall a, b :: 0 <= a < b < |docs| ==>
               DocsDiffer(docs[a], docs[b])
    ensures NewDoc(s, c, docs[i], DocPlan(docs, |docs|, tx))
  {
    hide Authentic, DocPlan;
    DocPlanEntry(docs, |docs|, tx, i);
    DocPlanHas(docs, |docs|, tx, i);
    DocPlanKinds(docs, |docs|, tx);
    hide DocsDiffer;
  }

  lemma NewDocsFrom(env: Env, s: State, c: Command, x: Execution, t: Transient, b: Batch, v: Verified)
    requires Gathered(env, s, c, x, t, b, v)
    ensures NewDocs(s, c, Submitted(c, t), v.pub)
  {
    hide DocUsed, PrivFrom, DocOk, DocsDiffer, DocPlan, NewDoc, HasType;
    var docs := Submitted(c, t);
    forall i | 0 <= i < |docs| ensures NewDoc(s, c, docs[i], v.pub) {
      NewDocAt(env, s, c, docs, x.tx, i);
    }
    forall d | DocumentKey(d) in v.pub ensures exists i :: 0 <= i < |docs| && docs[i].envelope.header.document == d {
      DocPlanOrigin(docs, |docs|, x.tx, d);
    }
    DocPlanKinds(docs, |docs|, x.tx);
  }

  // ---------------------------------------------------------------- consumed

  lemma OldEnvelope(s: State, s': State, c: Command, x: Execution, version: int, v: Verified, docs: seq<Bundle>, d: Id)
    requires Consumed(s) && NewDocs(s, c, docs, v.pub) && ProofEffect(s, s', v) && ReceiptsGrow(s, s', c, x, version)
    requires DocumentKey(d) in s.pub
    ensures DocumentKey(d) in s'.pub && s'.pub[DocumentKey(d)] == s.pub[DocumentKey(d)] && EnvelopeOk(s', d)
    ensures EnvelopeOk(s, d)
  {
    assert EnvelopeOk(s, d);
    hide DocsDiffer, Consumed, HeadersDiffer;
    assert DocumentKey(d) !in v.pub;
    assert DocumentKey(d) in s'.pub;
    var h := s.pub[DocumentKey(d)].envelope.header;
    assert SourceUseKey(h.issuer, h.sourceDocument) in s'.pub;
    assert NonceKey(h.issuer, h.nonce) in s'.pub;
    assert OperationKey(ConsumerOf(h.docType).0, h.op) in s'.pub;
  }

  lemma NewEnvelope(s: State, s': State, c: Command, x: Execution, version: int, v: Verified, docs: seq<Bundle>, i: nat)
    requires NewDocs(s, c, docs, v.pub) && ProofEffect(s, s', v) && ReceiptsGrow(s, s', c, x, version)
    requires i < |docs| && x.actor == RequiredCaller(c.name).0
    ensures var d := docs[i].envelope.header.document;
            && DocumentKey(d) in s'.pub && s'.pub[DocumentKey(d)] == EnvelopeValue(docs[i].envelope)
            && EnvelopeOk(s', d)
  {
    hide DocsDiffer;
    var h := docs[i].envelope.header;
    assert DocumentKey(h.document) in s'.pub;
    assert SourceUseKey(h.issuer, h.sourceDocument) in s'.pub;
    assert NonceKey(h.issuer, h.nonce) in s'.pub;
    assert ConsumerOf(h.docType) == (x.actor, c.name);
  }

  lemma OldAndNew(s: State, c: Command, docs: seq<Bundle>, p: Plan, d: Id, i: nat)
    requires NewDocs(s, c, docs, p) && i < |docs| && DocumentKey(d) in s.pub && EnvelopeOk(s, d)
    ensures HeadersDiffer(s.pub[DocumentKey(d)].envelope.header, docs[i].envelope.header)
    ensures HeadersDiffer(docs[i].envelope.header, s.pub[DocumentKey(d)].envelope.header)
  {
    hide DocsDiffer;
  }

  lemma ConsumedKept(s: State, s': State, c: Command, x: Execution, version: int, v: Verified, docs: seq<Bundle>)
    requires Consumed(s) && NewDocs(s, c, docs, v.pub) && ProofEffect(s, s', v) && ReceiptsGrow(s, s', c, x, version)
    requires x.actor == RequiredCaller(c.name).0
    ensures Consumed(s')
  {
    hide EnvelopeOk, HeadersDiffer, ReceiptsGrow;
    forall d | DocumentKey(d) in s'.pub ensures EnvelopeOk(s', d) {
      if DocumentKey(d) in s.pub {
        OldEnvelope(s, s', c, x, version, v, docs, d);
      } else {
        var i :| 0 <= i < |docs| && docs[i].envelope.header.document == d;
        NewEnvelope(s, s', c, x, version, v, docs, i);
      }
    }
    forall d, e | DocumentKey(d) in s'.pub && DocumentKey(e) in s'.pub && d != e
      ensures s'.pub[DocumentKey(d)].EnvelopeValue? && s'.pub[DocumentKey(e)].EnvelopeValue?
              && HeadersDiffer(s'.pub[DocumentKey(d)].envelope.header, s'.pub[DocumentKey(e)].envelope.header)
    {
      PairDiffers(s, s', c, x, version, v, docs, d, e);
    }
  }

  lemma PairDiffers(s: State, s': State, c: Command, x: Execution, version: int, v: Verified, docs: seq<Bundle>, d: Id,
                    e: Id)
    requires Consumed(s) && NewDocs(s, c, docs, v.pub) && ProofEffect(s, s', v) && ReceiptsGrow(s, s', c, x, version)
    requires x.actor == RequiredCaller(c.name).0
    requires DocumentKey(d) in s'.pub && DocumentKey(e) in s'.pub && d != e
    ensures s'.pub[DocumentKey(d)].EnvelopeValue? && s'.pub[DocumentKey(e)].EnvelopeValue?
    ensures HeadersDiffer(s'.pub[DocumentKey(d)].envelope.header, s'.pub[DocumentKey(e)].envelope.header)
  {
    hide NewDoc, HeadersDiffer, RequiredCaller, DocsDiffer, ReceiptsGrow;
    if DocumentKey(d) in s.pub {
      OldEnvelope(s, s', c, x, version, v, docs, d);
    }
    if DocumentKey(e) in s.pub {
      OldEnvelope(s, s', c, x, version, v, docs, e);
    }
    if DocumentKey(d) !in s.pub {
      var i :| 0 <= i < |docs| && docs[i].envelope.header.document == d;
      NewEnvelope(s, s', c, x, version, v, docs, i);
      if DocumentKey(e) in s.pub {
        OldAndNew(s, c, docs, v.pub, e, i);
      } else {
        var j :| 0 <= j < |docs| && docs[j].envelope.header.document == e;
        NewEnvelope(s, s', c, x, version, v, docs, j);
        NewDocsDiffer(s, c, docs, v.pub, i, j);
      }
    } else if DocumentKey(e) !in s.pub {
      var j :| 0 <= j < |docs| && docs[j].envelope.header.document == e;
      NewEnvelope(s, s', c, x, version, v, docs, j);
      OldAndNew(s, c, docs, v.pub, d, j);
    }
  }

  lemma NewDocsDiffer(s: State, c: Command, docs: seq<Bundle>, p: Plan, i: nat, j: nat)
    requires NewDocs(s, c, docs, p) && i < |docs| && j < |docs| && i != j
    ensures HeadersDiffer(docs[i].envelope.header, docs[j].envelope.header)
  {
    assert if i < j then DocsDiffer(docs[i], docs[j]) else DocsDiffer(docs[j], docs[i]);
  }

  // ------------------------------------------------------------------- slots

  /** What a command plans for document references and slots. */
  ghost predicate DocRefPlan(c: Command, st: Start, v: Verified, arm: Arm) {
    match c.name
    case CreateBatch =>
      && (forall k :: k in arm.plan ==> k == DocRefKey(v.cks))
      && DocRefKey(v.cks) in arm.plan && arm.plan[DocRefKey(v.cks)].Some?
      && arm.refs == st.refs.(cks := v.cks)
    case OfferPickup =>
      && (forall d {:trigger DocRefKey(d) in arm.plan} :: DocRefKey(d) in arm.plan <==>
            d == v.purchase || d == v.hks || d == v.manifest)
      && (forall d {:trigger DocRefKey(d) in arm.plan} :: DocRefKey(d) in arm.plan ==> arm.plan[DocRefKey(d)].Some?)
      && arm.refs == st.refs.(purchase := v.purchase, hks := v.hks, transport := v.manifest)
    case _ =>
      && (forall k :: k in arm.plan ==> !k.DocRefKey?)
      && arm.refs.cks == st.refs.cks && arm.refs.purchase == st.refs.purchase
      && arm.refs.hks == st.refs.hks && arm.refs.transport == st.refs.transport
  }

  lemma ConsumeAdds(s: State, plan: Plan, document: Id, c: Command)
    requires Consume(s, plan, document, c).Ok?
    ensures Consume(s, plan, document, c).value == plan[DocRefKey(document) := Some(DocRefValue(c.batch, c.op))]
  {
  }

  lemma PickupRefs(s: State, c: Command, st: Start, v: Verified)
    requires PickupDocuments(s, c, st, v).Ok?
    ensures var w := Some(DocRefValue(c.batch, c.op));
            PickupDocuments(s, c, st, v).value.0
            == map[DocRefKey(v.purchase) := w, DocRefKey(v.hks) := w, DocRefKey(v.manifest) := w]
  {
    hide Consume, ValidPurchase;
    var p1 := Consume(s, map[], v.purchase, c).value;
    var p2 := Consume(s, p1, v.hks, c).value;
    ConsumeAdds(s, map[], v.purchase, c);
    ConsumeAdds(s, p1, v.hks, c);
    ConsumeAdds(s, p2, v.manifest, c);
  }

  lemma OfferDocRefs(s: State, c: Command, x: Execution, st: Start, v: Verified, arm: Arm)
    requires IsOffer(c.name) && OfferArm(s, c, x, st, v) == Ok(arm)
    ensures DocRefPlan(c, st, v, arm)
  {
    hide PickupDocuments, ValidPurchase;
    if c.name.OfferPickup? {
      PickupRefs(s, c, st, v);
      PickupNotEmpty(s, c, st, v);
    }
  }

  lemma CreateDocRefs(s: State, c: Command, x: Execution, st: Start, v: Verified, arm: Arm)
    requires c.name.CreateBatch? && CreateArm(s, c, x, st, v) == Ok(arm)
    ensures DocRefPlan(c, st, v, arm)
  {
    hide Consume;
    ConsumeAdds(s, map[], v.cks, c);
  }

  lemma AcceptDocRefs(s: State, c: Command, x: Execution, st: Start, v: Verified, arm: Arm)
    requires IsAccept(c.name) && AcceptArm(s, c, x, st) == Ok(arm)
    ensures DocRefPlan(c, st, v, arm)
  {
  }

  lemma ReportDocRefs(s: State, c: Command, x: Execution, st: Start, v: Verified, arm: Arm)
    requires c.name.ReportRetailPrice? && ReportArm(s, c, x, st, v) == Ok(arm)
    ensures DocRefPlan(c, st, v, arm)
  {
    hide ValidPurchase;
  }

  lemma DocRefPlanned(s: State, c: Command, x: Execution, st: Start, v: Verified, arm: Arm)
    requires Admitted(s, c, x, st) && RunArm(s, c, x, st, v) == Ok(arm)
    ensures DocRefPlan(c, st, v, arm)
  {
    hide OfferArm, CreateArm, AcceptArm, ReportArm, Admitted;
    match c.name
    case CreateBatch => CreateDocRefs(s, c, x, st, v, arm);
    case OfferPickup | OfferDelivery => OfferDocRefs(s, c, x, st, v, arm);
    case AcceptPickup | AcceptDelivery => AcceptDocRefs(s, c, x, st, v, arm);
    case ReportRetailPrice => ReportDocRefs(s, c, x, st, v, arm);
    case _ =>
  }

  /** The id a document of this type leaves in the verified facts. */
  predicate SlotDoc(v: Verified, h: Header) {
    match h.docType
    case ProducerEligibility => h.document == v.cks
    case PurchaseInvoice => h.document == v.purchase
    case TradeNotification => h.document == v.hks
    case TransportManifest => h.document == v.manifest
    case FreightInvoice => true
    case OtherDocument(_) => false
  }

  ghost predicate SlotDocs(c: Command, v: Verified, docs: seq<Bundle>) {
    && (forall i :: 0 <= i < |docs| ==> SlotDoc(v, docs[i].envelope.header))
    && (forall k :: k in RequiredTypes(c.name) ==> HasType(docs, k))
  }

  lemma SlotDocsFrom(env: Env, s: State, c: Command, x: Execution, t: Transient, b: Batch, v: Verified)
    requires Gathered(env, s, c, x, t, b, v)
    ensures SlotDocs(c, v, Submitted(c, t))
  {
    hide DocsDiffer, PrivFrom, DocOk, Submitted, DocPlan, HasType, RequiredTypes;
  }

  lemma StoredStays(s: State, s': State, c: Command, x: Execution, v: Verified, docs: seq<Bundle>, d: Id, k: DocType,
                    batch: Id)
    requires Stored(s, d, k, batch) && NewDocs(s, c, docs, v.pub) && ProofEffect(s, s', v)
    ensures Stored(s', d, k, batch)
  {
    hide DocsDiffer;
    assert DocumentKey(d) !in v.pub;
    assert DocumentKey(d) in s'.pub;
  }

  lemma StoredNew(s: State, s': State, c: Command, v: Verified, docs: seq<Bundle>, k: DocType, d: Id)
    requires NewDocs(s, c, docs, v.pub) && ProofEffect(s, s', v) && SlotDocs(c, v, docs)
    requires k in RequiredTypes(c.name)
    requires forall h :: SlotDoc(v, h) && h.docType == k ==> h.document == d
    ensures Stored(s', d, k, c.batch)
  {
    hide DocsDiffer, SlotDoc;
    assert HasType(docs, k);
    var i :| 0 <= i < |docs| && docs[i].envelope.header.docType == k;
    var h := docs[i].envelope.header;
    assert SlotDoc(v, h);
    assert DocumentKey(h.document) in s'.pub;
  }

  lemma SlotsElsewhere(s: State, s': State, c: Command, x: Execution, v: Verified, docs: seq<Bundle>, id: Id)
    requires SlotsOf(s, id) && NewDocs(s, c, docs, v.pub) && ProofEffect(s, s', v)
    requires RefsAt(s', id) == RefsAt(s, id)
    ensures SlotsOf(s', id)
  {
    hide NewDocs, ProofEffect, Stored;
    var r := RefsAt(s, id);
    StoredStays(s, s', c, x, v, docs, r.cks, ProducerEligibility, id);
    if r.purchase != NO_ID {
      StoredStays(s, s', c, x, v, docs, r.purchase, PurchaseInvoice, id);
    }
    if r.hks != NO_ID {
      StoredStays(s, s', c, x, v, docs, r.hks, TradeNotification, id);
    }
    if r.transport != NO_ID {
      StoredStays(s, s', c, x, v, docs, r.transport, TransportManifest, id);
    }
  }

  lemma SlotsHere(s: State, s': State, c: Command, x: Execution, st: Start, v: Verified, docs: seq<Bundle>, arm: Arm)
    requires NewDocs(s, c, docs, v.pub) && ProofEffect(s, s', v) && DocRefPlan(c, st, v, arm) && SlotDocs(c, v, docs)
    requires RefsAt(s', c.batch) == arm.refs
    requires if st.existing then SlotsOf(s, c.batch) && RefsAt(s, c.batch) == st.refs
             else st == Start(false, ZERO_BATCH, EmptyRefs(c.batch)) && c.name.CreateBatch?
    requires c.name.CreateBatch? ==> !st.existing
    ensures SlotsOf(s', c.batch)
  {
    hide NewDocs, ProofEffect, Stored, SlotDocs, RefsAt;
    if c.name.CreateBatch? {
      StoredNew(s, s', c, v, docs, ProducerEligibility, v.cks);
    } else {
      var r := st.refs;
      StoredStays(s, s', c, x, v, docs, r.cks, ProducerEligibility, c.batch);
      if c.name.OfferPickup? {
        StoredNew(s, s', c, v, docs, PurchaseInvoice, v.purchase);
        StoredNew(s, s', c, v, docs, TradeNotification, v.hks);
        StoredNew(s, s', c, v, docs, TransportManifest, v.manifest);
      } else {
        if r.purchase != NO_ID {
          StoredStays(s, s', c, x, v, docs, r.purchase, PurchaseInvoice, c.batch);
        }
        if r.hks != NO_ID {
          StoredStays(s, s', c, x, v, docs, r.hks, TradeNotification, c.batch);
        }
        if r.transport != NO_ID {
          StoredStays(s, s', c, x, v, docs, r.transport, TransportManifest, c.batch);
        }
      }
    }
  }

  /** The document references a command plans are the ids of its documents, freight invoices aside. */
  lemma RefHasDocument(s: State, c: Command, st: Start, v: Verified, docs: seq<Bundle>, arm: Arm, d: Id)
    requires NewDocs(s, c, docs, v.pub) && SlotDocs(c, v, docs) && DocRefPlan(c, st, v, arm)
    requires DocRefKey(d) in arm.plan
    ensures DocumentKey(d) in v.pub
  {
    hide NewDoc;
    var k := if c.name.CreateBatch? then ProducerEligibility else if d == v.purchase then PurchaseInvoice
             else if d == v.hks then TradeNotification else TransportManifest;
    assert k in RequiredTypes(c.name) && d == SlotOf(v, k);
    assert HasType(docs, k);
    var i :| 0 <= i < |docs| && docs[i].envelope.header.docType == k;
    assert SlotDoc(v, docs[i].envelope.header) && NewDoc(s, c, docs[i], v.pub);
    SlotClaimed(s, c, v, docs[i], v.pub);
  }

  /** The slot that a document of this type fills; a freight invoice fills none. */
  function SlotOf(v: Verified, k: DocType): Id {
    match k
    case ProducerEligibility => v.cks
    case PurchaseInvoice => v.purchase
    case TradeNotification => v.hks
    case TransportManifest => v.manifest
    case _ => NO_ID
  }

  lemma SlotClaimed(s: State, c: Command, v: Verified, d: Bundle, p: Plan)
    requires NewDoc(s, c, d, p) && SlotDoc(v, d.envelope.header) && !d.envelope.header.docType.FreightInvoice?
    ensures DocumentKey(SlotOf(v, d.envelope.header.docType)) in p
  {
  }

  lemma DocumentHasRef(s: State, c: Command, st: Start, v: Verified, docs: seq<Bundle>, arm: Arm, d: Id)
    returns (h: Header)
    requires NewDocs(s, c, docs, v.pub) && SlotDocs(c, v, docs) && DocRefPlan(c, st, v, arm)
    requires DocumentKey(d) in v.pub
    ensures DocumentKey(d) !in s.pub && v.pub[DocumentKey(d)].Some? && v.pub[DocumentKey(d)].value.EnvelopeValue?
    ensures h == v.pub[DocumentKey(d)].value.envelope.header
    ensures DocRefKey(d) in arm.plan <==> !h.docType.FreightInvoice?
    ensures DocRefKey(d) in arm.plan ==> arm.plan[DocRefKey(d)].Some?
  {
    hide DocsDiffer;
    var i :| 0 <= i < |docs| && docs[i].envelope.header.document == d;
    h := docs[i].envelope.header;
    assert v.pub[DocumentKey(d)] == Some(EnvelopeValue(docs[i].envelope));
    SlotHasRef(c, st, v, arm, h);
    hide NewDocs, SlotDocs, DocRefPlan;
  }

  lemma SlotHasRef(c: Command, st: Start, v: Verified, arm: Arm, h: Header)
    requires DocRefPlan(c, st, v, arm) && SlotDoc(v, h) && h.docType in RequiredTypes(c.name)
    ensures DocRefKey(h.document) in arm.plan <==> !h.docType.FreightInvoice?
    ensures DocRefKey(h.document) in arm.plan ==> arm.plan[DocRefKey(h.document)].Some?
  {
  }

  lemma ReferencedKept(s: State, s': State, c: Command, st: Start, v: Verified, docs: seq<Bundle>, arm: Arm, d: Id)
    requires Referenced(s, d) && NewDocs(s, c, docs, v.pub) && SlotDocs(c, v, docs) && DocRefPlan(c, st, v, arm)
    requires ProofEffect(s, s', v) && ArmEffect(s, s', arm)
    ensures Referenced(s', d)
  {
    hide NewDocs, SlotDocs, DocRefPlan;
    if DocumentKey(d) in v.pub {
      var h := DocumentHasRef(s, c, st, v, docs, arm, d);
    } else if DocRefKey(d) in arm.plan {
      RefHasDocument(s, c, st, v, docs, arm, d);
    }
    assert DocRefKey(d) in s'.pub <==> DocRefKey(d) in arm.plan || DocRefKey(d) in s.pub;
    assert DocumentKey(d) in s'.pub <==> DocumentKey(d) in v.pub || DocumentKey(d) in s.pub;
  }

  lemma SlotsKept(s: State, s': State, c: Command, x: Execution, st: Start, v: Verified, docs: seq<Bundle>, arm: Arm,
                  b: Batch)
    requires Slots(s) && NewDocs(s, c, docs, v.pub) && SlotDocs(c, v, docs) && DocRefPlan(c, st, v, arm)
    requires ProofEffect(s, s', v) && ArmEffect(s, s', arm)
    requires Getters(s, s', c.batch, b, arm.refs)
    requires if st.existing then Started(s, c, st) else st == Start(false, ZERO_BATCH, EmptyRefs(c.batch))
    requires c.name.CreateBatch? <==> !st.existing
    ensures Slots(s')
  {
    hide NewDocs, SlotDocs, DocRefPlan, ProofEffect, ArmEffect, SlotsOf, RefsAt, BatchAt, LifecycleOk;
    forall id | BatchKey(id) in s'.pub ensures SlotsOf(s', id) {
      if id == c.batch {
        SlotsHere(s, s', c, x, st, v, docs, arm);
      } else {
        SlotsElsewhere(s, s', c, x, v, docs, id);
      }
    }
    forall d ensures Referenced(s', d) {
      assert Referenced(s, d);
      ReferencedKept(s, s', c, st, v, docs, arm, d);
    }
  }

  // ==========================================================================
  // Every accepted command keeps the private records, and never overwrites one but an anomaly's
  // review state.

  // -------------------------------------------------------------- write-once

  /** Keys that are written once and never again. */
  predicate IsWriteOnce(k: Key) {
    || k.DocumentKey? || k.SourceUseKey? || k.NonceKey? || k.DocRefKey? || k.CostRefKey? || k.LotKey? || k.ReportRefKey?
    || k.EvaluationKey? || k.AnomalyRefKey? || k.ReviewRefKey?
  }

  ghost predicate Permanent(s: State, s': State) {
    forall k {:trigger k in s'.pub} {:trigger k in s.pub} ::
      IsWriteOnce(k) && k in s.pub ==> k in s'.pub && s'.pub[k] == s.pub[k]
  }

  ghost predicate ArmIsFresh(s: State, arm: Arm) {
    forall k :: k in arm.plan && IsWriteOnce(k) ==> k !in s.pub && arm.plan[k].Some?
  }

  lemma OfferFresh(s: State, c: Command, x: Execution, st: Start, v: Verified, arm: Arm)
    requires IsOffer(c.name) && OfferArm(s, c, x, st, v) == Ok(arm)
    ensures ArmIsFresh(s, arm)
  {
    hide PickupDocuments;
    if c.name.OfferPickup? {
      PickupKinds(s, c, st, v);
    }
  }

  lemma AcceptFresh(s: State, c: Command, x: Execution, st: Start, arm: Arm)
    requires IsAccept(c.name) && AcceptArm(s, c, x, st) == Ok(arm)
    ensures ArmIsFresh(s, arm)
  {
    hide IsAccept;
  }

  lemma ReferenceFresh(s: State, c: Command, st: Start, arm: Arm)
    requires (c.name.RecordFreightCost? || c.name.ReportRetailPrice?) && ReferencePlan(s, c, st, arm)
    ensures ArmIsFresh(s, arm)
  {
  }

  lemma CreateFresh(s: State, c: Command, x: Execution, st: Start, v: Verified, arm: Arm)
    requires CreateArm(s, c, x, st, v) == Ok(arm)
    ensures ArmIsFresh(s, arm)
  {
    hide Consume;
    ConsumeKinds(s, map[], v.cks, c);
  }

  lemma ArmFresh(s: State, c: Command, x: Execution, st: Start, v: Verified, arm: Arm)
    requires Admitted(s, c, x, st) && RunArm(s, c, x, st, v) == Ok(arm)
    ensures ArmIsFresh(s, arm)
  {
    hide Admitted, CreateArm, OfferArm, AcceptArm, FreightArm, ReportArm, ReferencePlan;
    ReferencePlanned(s, c, x, st, v, arm);
    match c.name
    case CreateBatch => CreateFresh(s, c, x, st, v, arm);
    case OfferPickup | OfferDelivery => OfferFresh(s, c, x, st, v, arm);
    case AcceptPickup | AcceptDelivery => AcceptFresh(s, c, x, st, arm);
    case RecordFreightCost | ReportRetailPrice => ReferenceFresh(s, c, st, arm);
    case _ =>
  }

  ghost predicate Fresh(s: State, p: Plan) {
    forall k :: k in p ==> k !in s.pub && p[k].Some?
  }

  lemma DocIsFresh(env: Env, s: State, c: Command, d: Bundle)
    requires DocOk(env, s, c, d)
    ensures var h := d.envelope.header;
            && DocumentKey(h.document) !in s.pub && SourceUseKey(h.issuer, h.sourceDocument) !in s.pub
            && NonceKey(h.issuer, h.nonce) !in s.pub
  {
    hide Authentic;
  }

  lemma {:induction false} DocPlanFresh(env: Env, s: State, c: Command, docs: seq<Bundle>, n: nat, tx: string)
    requires n <= |docs| && forall i :: 0 <= i < n ==> DocOk(env, s, c, docs[i])
    ensures Fresh(s, DocPlan(docs, n, tx))
  {
    hide DocOk;
    if n > 0 {
      DocPlanFresh(env, s, c, docs, n - 1, tx);
      DocIsFresh(env, s, c, docs[n - 1]);
    }
  }

  lemma ProofIsFresh(env: Env, s: State, c: Command, x: Execution, t: Transient, b: Batch, refs: Refs, v: Verified)
    requires Prepare(env, s, c, x, t, b, refs) == Ok(v)
    requires Guarded(s) && x.actor == RequiredCaller(c.name).0 && OperationKey(x.actor, c.op) !in s.pub
    ensures Fresh(s, v.pub)
  {
    hide Prepare, GatherDocuments, Gathered, Submitted, Counterpart, RequiredTypes, DocKeysOnly;
    if IsAnalysis(c.name) {
      ProofPlanned(env, s, c, x, t, b, refs, v);
      hide Prepare;
      if !c.name.EvaluatePrice? {
        assert ReviewRefKey(c.payload.anomaly, c.op) !in s.pub;
      }
    } else {
      GatheredPub(env, s, c, x, t, b, refs);
      hide Prepare;
      GatherFacts(env, s, c, x, t, b);
      GatheredFresh(env, s, c, x, t, b, GatherDocuments(env, s, c, x, t, b).value);
    }
  }

  lemma GatheredFresh(env: Env, s: State, c: Command, x: Execution, t: Transient, b: Batch, v: Verified)
    requires Gathered(env, s, c, x, t, b, v)
    ensures Fresh(s, v.pub)
  {
    hide DocUsed, DocsDiffer, PrivFrom, DocOk;
    var docs := Submitted(c, t);
    DocPlanFresh(env, s, c, docs, |docs|, x.tx);
  }

  lemma PermanentKept(s: State, s': State, arm: Arm, v: Verified)
    requires ArmIsFresh(s, arm)
    requires Fresh(s, v.pub) && ArmEffect(s, s', arm) && ProofEffect(s, s', v)
    ensures Permanent(s, s')
  {
  }

  // ---------------------------------------------------------- private writes

  /** The private keys a command writes, and their public counterparts. */
  ghost predicate PrivPlan(c: Command, v: Verified) {
    forall q {:trigger q in v.priv} :: q in v.priv ==>
      match q
      case OpeningKey(_, d) => DocumentKey(d) in v.pub
      case CostKey(k) => c.name.RecordFreightCost? && c.payload.FreightInput? && k == c.payload.cost
      case ReportKey(k) => c.name.ReportRetailPrice? && c.payload.ReportInput? && k == c.payload.report
      case AnomalyKey(a) =>
        || (c.name.EvaluatePrice? && c.payload.EvaluateInput? && a == c.payload.anomaly)
        || ((c.name.OpenReview? || c.name.ResolveReview?) && c.payload.ReviewTarget? && a == c.payload.anomaly)
      case ActionKey(a, op) =>
        (c.name.OpenReview? || c.name.ResolveReview?) && c.payload.ReviewTarget? && a == c.payload.anomaly && op == c.op
  }

  lemma GatheredPriv(env: Env, s: State, c: Command, x: Execution, t: Transient, b: Batch, v: Verified)
    requires Gathered(env, s, c, x, t, b, v)
    ensures PrivPlan(c, v)
  {
    hide Submitted, RequiredTypes, HasType, DocPlan, DocsDiffer, DocOk, DocUsed;
    NewDocsFrom(env, s, c, x, t, b, v);
    var docs := Submitted(c, t);
    forall i | 0 <= i < |docs| ensures DocumentKey(docs[i].envelope.header.document) in v.pub {
    }
  }

  lemma EvaluatePriv(s: State, c: Command, x: Execution, t: Transient, b: Batch, refs: Refs, v: Verified)
    requires c.name.EvaluatePrice? && Evaluate(s, c, x, t, b, refs) == Ok(v)
    ensures PrivPlan(c, v)
  {
    hide ValidId, HexId, LoadPurchase, LoadCost, LoadReport, LoadConfig;
  }

  lemma ReviewPriv(env: Env, s: State, c: Command, x: Execution, t: Transient, b: Batch, v: Verified)
    requires (c.name.OpenReview? || c.name.ResolveReview?) && Review(env, s, c, x, t, b) == Ok(v)
    ensures PrivPlan(c, v)
  {
    hide ValidId, HexId, LoadAnomaly, ReadReview, ReadSalt;
  }

  lemma PrivPlanned(env: Env, s: State, c: Command, x: Execution, t: Transient, b: Batch, refs: Refs, v: Verified)
    requires Prepare(env, s, c, x, t, b, refs) == Ok(v)
    ensures PrivPlan(c, v)
  {
    hide GatherDocuments, Evaluate, Review, TakeReport, Gathered;
    if c.name.EvaluatePrice? {
      EvaluatePriv(s, c, x, t, b, refs, v);
    } else if IsAnalysis(c.name) {
      ReviewPriv(env, s, c, x, t, b, v);
    } else {
      GatherFacts(env, s, c, x, t, b);
      var v0 := GatherDocuments(env, s, c, x, t, b).value;
      GatheredPriv(env, s, c, x, t, b, v0);
      if c.name.ReportRetailPrice? {
        ReportPriv(env, s, c, x, t, b, refs, LoadConfig(s).value.policy, v0);
      }
    }
  }

  lemma ReportPriv(env: Env, s: State, c: Command, x: Execution, t: Transient, b: Batch, refs: Refs, policy: Id,
                   v: Verified)
    requires c.name.ReportRetailPrice? && TakeReport(env, s, c, x, t, b, refs, policy, v).Ok? && PrivPlan(c, v)
    ensures PrivPlan(c, TakeReport(env, s, c, x, t, b, refs, policy, v).value)
  {
    hide LoadPurchase, LoadCost, HexId;
  }

  /** A private record stays as it is, unless it is the anomaly record under review. */
  ghost predicate Sealed(s: State, s': State, c: Command) {
    forall q {:trigger q in s'.priv} {:trigger q in s.priv} :: q in s.priv ==>
      q in s'.priv
      && (!(q.AnomalyKey? && c.payload.ReviewTarget? && q.anomaly == c.payload.anomaly) ==> s'.priv[q] == s.priv[q])
  }

  lemma SealedKept(s: State, s': State, c: Command, x: Execution, st: Start, arm: Arm, v: Verified)
    requires Guarded(s) && Admitted(s, c, x, st)
    requires PrivPlan(c, v) && ProofPlan(s, c, x, st.before, st.refs, v) && Fresh(s, v.pub) && ProofEffect(s, s', v)
    requires ReferencePlan(s, c, st, arm)
    ensures Sealed(s, s', c)
  {
    hide Guarded, Admitted, PrivPlan, ProofPlan, Fresh, ReferencePlan;
    forall q | q in s.priv && !(q.AnomalyKey? && c.payload.ReviewTarget? && q.anomaly == c.payload.anomaly)
      ensures q !in v.priv
    {
      NotRewritten(s, c, x, st, arm, v, q);
    }
  }

  /** A stored private record is not among the writes, unless it is the anomaly record under review. */
  lemma NotRewritten(s: State, c: Command, x: Execution, st: Start, arm: Arm, v: Verified, q: PrivKey)
    requires Guarded(s) && Admitted(s, c, x, st) && ReferencePlan(s, c, st, arm)
    requires PrivPlan(c, v) && ProofPlan(s, c, x, st.before, st.refs, v) && Fresh(s, v.pub)
    requires q in s.priv && !(q.AnomalyKey? && c.payload.ReviewTarget? && q.anomaly == c.payload.anomaly)
    ensures q !in v.priv
  {
    hide Admitted, ReviewGuarded, DocKeysOnly;
    match q
    case OpeningKey(_, d) =>
      hide ProofPlan, ReferencePlan, Admitted;
      assert DocumentKey(d) !in v.pub;
    case ActionKey(a, op) =>
      hide ReferencePlan;
      assert ReviewRefKey(a, op) in s.pub;
    case _ =>
  }

  lemma GuardedKept(s: State, s': State, c: Command, x: Execution, st: Start, arm: Arm, v: Verified, version: int)
    requires Guarded(s) && Evaluations(s) && Permanent(s, s') && Sealed(s, s', c)
    requires Admitted(s, c, x, st) && (st.existing ==> st.before.id == c.batch)
    requires PrivPlan(c, v) && ProofPlan(s, c, x, st.before, st.refs, v) && Fresh(s, v.pub) && ProofEffect(s, s', v)
    requires ReferencePlan(s, c, st, arm) && ArmEffect(s, s', arm) && ReceiptsGrow(s, s', c, x, version)
    requires IsAnalysis(c.name) && !c.name.EvaluatePrice? ==> ReviewWrites(c, x, v)
    ensures Guarded(s')
  {
    hide PayloadFits, ReviewGuarded, Counterpart, Evaluations, Sealed, ReviewWrites, ReceiptsGrow, ArmEffect,
         ReferencePlan, ProofEffect, Fresh, ProofPlan, PrivPlan;
    assert IsAnalysis(c.name) ==> x.actor == Regulator by {
      hide PayloadFits;
    }
    forall q | q in s'.priv ensures Counterpart(s', q) {
      GuardAt(s, s', c, x, st, arm, v, q);
    }
    forall a, op | ReviewRefKey(a, op) in s'.pub ensures ReviewGuarded(s', a, op) {
      ReviewGuardAt(s, s', c, x, st, v, version, a, op);
    }
  }

  /** A review writes its action record. */
  ghost predicate ReviewWrites(c: Command, x: Execution, v: Verified) {
    && c.payload.ReviewTarget?
    && ActionKey(c.payload.anomaly, c.op) in v.priv && v.priv[ActionKey(c.payload.anomaly, c.op)].ActionValue?
    && var a := v.priv[ActionKey(c.payload.anomaly, c.op)].action;
       a.op == c.op && a.anomaly == c.payload.anomaly && a.command == c.name && a.tx == x.tx
  }

  lemma ReviewWritten(env: Env, s: State, c: Command, x: Execution, t: Transient, b: Batch, v: Verified)
    requires (c.name.OpenReview? || c.name.ResolveReview?) && Review(env, s, c, x, t, b) == Ok(v)
    ensures ReviewWrites(c, x, v)
  {
    hide ValidId, HexId, LoadAnomaly, ReadReview, ReadSalt;
  }

  lemma GuardAt(s: State, s': State, c: Command, x: Execution, st: Start, arm: Arm, v: Verified, q: PrivKey)
    requires Guarded(s) && Evaluations(s) && Permanent(s, s') && PrivPlan(c, v)
    requires ProofPlan(s, c, x, st.before, st.refs, v) && Fresh(s, v.pub) && ProofEffect(s, s', v)
    requires ReferencePlan(s, c, st, arm) && ArmEffect(s, s', arm)
    requires q in s'.priv
    ensures Counterpart(s', q)
  {
    hide PrivPlan, ProofPlan, ReferencePlan, Fresh, ArmEffect, ProofEffect, Evaluations, Guarded, Counterpart,
         Permanent;
    if q in s.priv {
      OldGuard(s, s', q);
    } else {
      NewGuard(s, s', c, x, st, arm, v, q);
    }
  }

  lemma OldGuard(s: State, s': State, q: PrivKey)
    requires Guarded(s) && Permanent(s, s') && q in s.priv
    ensures Counterpart(s', q)
  {
    assert Counterpart(s, q);
  }

  lemma NewGuard(s: State, s': State, c: Command, x: Execution, st: Start, arm: Arm, v: Verified, q: PrivKey)
    requires PrivPlan(c, v) && ProofPlan(s, c, x, st.before, st.refs, v) && ProofEffect(s, s', v)
    requires ReferencePlan(s, c, st, arm) && ArmEffect(s, s', arm) && Evaluations(s)
    requires q in s'.priv && q !in s.priv
    ensures Counterpart(s', q)
  {
    assert q in v.priv;
  }

  lemma ReviewGuardAt(s: State, s': State, c: Command, x: Execution, st: Start, v: Verified, version: int, a: Id,
                      op: Id)
    requires Guarded(s) && Evaluations(s) && Permanent(s, s') && Sealed(s, s', c)
    requires ProofPlan(s, c, x, st.before, st.refs, v) && ProofEffect(s, s', v) && ReceiptsGrow(s, s', c, x, version)
    requires IsAnalysis(c.name) ==> x.actor == Regulator
    requires IsAnalysis(c.name) && !c.name.EvaluatePrice? ==> ReviewWrites(c, x, v)
    requires ReviewRefKey(a, op) in s'.pub
    ensures ReviewGuarded(s', a, op)
  {
    if ReviewRefKey(a, op) in s.pub {
      assert OperationKey(Regulator, op) in s.pub;
    } else {
      var e := s.pub[EvaluationKey(st.before.id)].evaluation;
      assert AnomalyRefKey(e.anomaly) in s.pub;
    }
  }

  // ==========================================================================
  // Every accepted command leaves each batch's purchase, freight and report records in place and
  // exact.

  // ------------------------------------------------------------------ frames

  lemma PurchaseStays(s: State, s': State, c: Command, document: Id, quantity: int)
    requires Sealed(s, s', c) && PurchaseStored(s, document, quantity)
    ensures PurchaseStored(s', document, quantity) && LoadPurchase(s', document) == LoadPurchase(s, document)
  {
    hide PurchaseOk;
  }

  lemma CostStays(s: State, s': State, c: Command, cost: Id, batch: Id, quantity: int)
    requires Sealed(s, s', c) && CostStored(s, cost, batch, quantity)
    ensures CostStored(s', cost, batch, quantity) && LoadCost(s', cost) == LoadCost(s, cost)
  {
  }

  lemma ReportStays(s: State, s': State, c: Command, v: Verified, report: Id, b: Batch, b': Batch, r: Refs, r': Refs)
    requires Sealed(s, s', c) && ProofEffect(s, s', v) && ReportStored(s, report, b, r)
    requires b'.id == b.id && b'.lot == b.lot && b'.quantity == b.quantity
    requires r'.purchase == r.purchase && r'.freight == r.freight
    ensures ReportStored(s', report, b', r') && LoadReport(s', report) == LoadReport(s, report)
  {
    hide ProofEffect, LoadConfig;
    ConfigStays(s, s', v);
  }

  lemma ConfigStays(s: State, s': State, v: Verified)
    requires ProofEffect(s, s', v)
    ensures LoadConfig(s') == LoadConfig(s)
  {
    assert ConfigKey in s'.pub <==> ConfigKey in s.pub;
  }

  lemma OpenedElsewhere(s: State, s': State, c: Command, v: Verified, id: Id)
    requires Opened(s, id) && Sealed(s, s', c) && ProofEffect(s, s', v)
    requires BatchAt(s', id) == BatchAt(s, id) && RefsAt(s', id) == RefsAt(s, id)
    ensures Opened(s', id)
  {
    hide Sealed, ProofEffect, PurchaseStored, CostStored, ReportStored, BatchAt, RefsAt;
    var b, r := BatchAt(s, id), RefsAt(s, id);
    if r.purchase != NO_ID {
      PurchaseStays(s, s', c, r.purchase, b.quantity);
    }
    if r.freight != NO_ID {
      CostStays(s, s', c, r.freight, id, b.quantity);
    }
    if r.report != NO_ID {
      ReportStays(s, s', c, v, r.report, b, b, r, r);
    }
  }

  // ------------------------------------------------------------- new records

  /** The 64-bit comparison of the purchase is the exact one: price times grams is total times one thousand. */
  lemma PurchaseExact(v: Verified)
    requires ValidPurchase(v)
    ensures v.purchasePrice * v.quantity == v.purchaseTotal * 1000
    ensures Fits64(v.purchasePrice * v.quantity) && Fits64(v.purchaseTotal * 1000)
  {
    MulRange(v.purchasePrice, v.quantity, 1_000_000_000, 100_000_000);
  }

  lemma UsedDocument(env: Env, s: State, c: Command, x: Execution, t: Transient, b: Batch, v: Verified, k: DocType)
    returns (d: Bundle)
    requires Gathered(env, s, c, x, t, b, v) && k in RequiredTypes(c.name)
    ensures d.envelope.header.docType == k && DocUsed(c, x, b, d, v)
  {
    hide DocUsed, DocOk, DocsDiffer, PrivFrom;
    var docs := Submitted(c, t);
    assert HasType(docs, k);
    var i :| 0 <= i < |docs| && docs[i].envelope.header.docType == k;
    d := docs[i];
  }

  lemma PickupOffer(s: State, c: Command, x: Execution, st: Start, v: Verified, arm: Arm)
    requires c.name.OfferPickup? && OfferArm(s, c, x, st, v) == Ok(arm)
    ensures arm.refs.purchase == v.purchase && v.quantity == st.before.quantity && ValidPurchase(v)
  {
    hide PickupDocuments, ValidPurchase;
    PickupNotEmpty(s, c, st, v);
  }

  /** The accepted pickup offer wrote the opening its purchase slot names. */
  lemma NewPurchase(env: Env, s: State, s': State, c: Command, x: Execution, t: Transient, b: Batch, v: Verified)
    requires c.name.OfferPickup? && Gathered(env, s, c, x, t, b, v) && s'.priv == s.priv + v.priv
    requires v.quantity == b.quantity && ValidPurchase(v) && b.producer == Producer && b.retailer == Retailer
    ensures PurchaseStored(s', v.purchase, b.quantity)
  {
    hide ValidPurchase, Gathered, PurchaseOk;
    hide DocUsed;
    var d := UsedDocument(env, s, c, x, t, b, v, PurchaseInvoice);
    InvoiceOk(c, x, b, d, v);
    InvoiceOpened(c, x, b, d, v);
    assert OpeningKey(TradeCollection, v.purchase) in s'.priv;
  }

  lemma InvoiceOpened(c: Command, x: Execution, b: Batch, d: Bundle, v: Verified)
    requires d.envelope.header.docType.PurchaseInvoice? && DocUsed(c, x, b, d, v)
    ensures d.body.PurchaseBody? && OpeningKey(TradeCollection, v.purchase) in v.priv
    ensures v.priv[OpeningKey(TradeCollection, v.purchase)] == OpeningValue(d.body, d.salt)
  {
  }

  lemma InvoiceOk(c: Command, x: Execution, b: Batch, d: Bundle, v: Verified)
    requires d.envelope.header.docType.PurchaseInvoice? && DocUsed(c, x, b, d, v) && ValidPurchase(v)
    requires v.quantity == b.quantity && b.producer == Producer && b.retailer == Retailer
    ensures PurchaseOk(d.body, b.quantity)
  {
    hide ValidPurchase;
    PurchaseBounds(v);
    assert v.purchasePrice * v.quantity == v.purchaseTotal * 1000 by {
      PurchaseExact(v);
    }
    assert d.body.price == v.purchasePrice && d.body.quantity == v.quantity && d.body.total == v.purchaseTotal;
    assert d.body.price * d.body.quantity == v.purchasePrice * v.quantity;
  }

  predicate ValidPurchaseBounds(v: Verified) {
    && 0 < v.purchasePrice <= 1_000_000_000 && 0 < v.purchaseTotal <= 1_000_000_000_000
    && v.currency == Try && v.tax == ExcludingTax
  }

  lemma PurchaseBounds(v: Verified)
    requires ValidPurchase(v)
    ensures ValidPurchaseBounds(v)
  {
    hide Mul64;
  }

  /** The accepted freight command wrote the cost record its slot names. */
  lemma NewCost(env: Env, s: State, s': State, c: Command, x: Execution, t: Transient, st: Start, v: Verified, arm: Arm)
    requires c.name.RecordFreightCost? && Gathered(env, s, c, x, t, st.before, v) && ProofEffect(s, s', v)
    requires FreightArm(s, c, x, st, v) == Ok(arm)
    ensures CostStored(s', arm.refs.freight, c.batch, st.before.quantity)
  {
    hide Gathered;
    var d := UsedDocument(env, s, c, x, t, st.before, v, FreightInvoice);
    assert CostKey(c.payload.cost) in s'.priv;
  }

  /** What the report command verified and wrote. */
  ghost predicate ReportFacts(s: State, c: Command, b: Batch, refs: Refs, v: Verified) {
    && c.payload.ReportInput? && LoadConfig(s).Ok? && v.policy == LoadConfig(s).value.policy
    && LoadPurchase(s, refs.purchase).Ok? && LoadPurchase(s, refs.purchase).value.PurchaseBody?
    && v.quantity == LoadPurchase(s, refs.purchase).value.quantity
    && ReportKey(c.payload.report) in v.priv && v.priv[ReportKey(c.payload.report)].ReportValue?
    && var r := v.priv[ReportKey(c.payload.report)].report;
       && r.report == c.payload.report && r.batch == c.batch && r.lot == c.payload.lot && r.quantity == b.quantity
       && r.purchase == refs.purchase && r.cost == refs.freight && r.policy == c.payload.policy
       && r.input.price == v.retailPrice && r.input.currency == v.currency && r.input.tax == v.tax
  }

  lemma ReportTaken(env: Env, s: State, c: Command, x: Execution, t: Transient, b: Batch, refs: Refs, policy: Id,
                    v: Verified)
    requires TakeReport(env, s, c, x, t, b, refs, policy, v).Ok? && LoadConfig(s).Ok?
             && policy == LoadConfig(s).value.policy
    ensures ReportFacts(s, c, b, refs, TakeReport(env, s, c, x, t, b, refs, policy, v).value)
  {
    hide LoadCost, HexId, LoadConfig;
  }

  lemma NewReport(env: Env, s: State, s': State, c: Command, x: Execution, t: Transient, st: Start, v: Verified,
                  arm: Arm, b: Batch)
    requires ReportFacts(s, c, st.before, st.refs, v) && ProofEffect(s, s', v) && ReportArm(s, c, x, st, v) == Ok(arm)
    requires b.id == c.batch && b.lot == arm.b.lot && b.quantity == st.before.quantity
    ensures ReportStored(s', arm.refs.report, b, arm.refs)
  {
    hide LoadConfig, ValidPurchase;
    ConfigStays(s, s', v);
    PurchaseBounds(v);
  }

  lemma ReportRecorded(env: Env, s: State, c: Command, x: Execution, t: Transient, b: Batch, refs: Refs, v: Verified)
    requires c.name.ReportRetailPrice? && Prepare(env, s, c, x, t, b, refs) == Ok(v)
    ensures ReportFacts(s, c, b, refs, v)
  {
    hide GatherDocuments, LoadConfig, TakeReport, ReportFacts, Evaluate, Review;
    ReportTaken(env, s, c, x, t, b, refs, LoadConfig(s).value.policy, GatherDocuments(env, s, c, x, t, b).value);
  }

  // -------------------------------------------------------------------- kept

  /** But for the report and the analysis, the evidence is that of the document loop. */
  lemma EvidenceTaken(env: Env, s: State, c: Command, x: Execution, t: Transient, b: Batch, refs: Refs, v: Verified)
    requires !IsAnalysis(c.name) && !c.name.ReportRetailPrice? && Prepare(env, s, c, x, t, b, refs) == Ok(v)
    ensures Gathered(env, s, c, x, t, b, v)
  {
    hide GatherDocuments, LoadConfig, Gathered, TakeReport, Evaluate, Review;
    GatherFacts(env, s, c, x, t, b);
  }

  lemma PurchaseHere(env: Env, s: State, s': State, c: Command, x: Execution, t: Transient, st: Start, v: Verified,
                     arm: Arm)
    requires st.existing ==> Opened(s, c.batch) && BatchAt(s, c.batch) == st.before && RefsAt(s, c.batch) == st.refs
    requires st.existing ==> LifecycleOk(c.batch, st.before, st.refs)
    requires !st.existing ==> st.refs == EmptyRefs(c.batch)
    requires Admitted(s, c, x, st) && Prepare(env, s, c, x, t, st.before, st.refs) == Ok(v)
             && RunArm(s, c, x, st, v) == Ok(arm)
    requires Sealed(s, s', c) && ProofEffect(s, s', v)
    ensures arm.refs.purchase != NO_ID ==> st.existing && PurchaseStored(s', arm.refs.purchase, st.before.quantity)
  {
    hide Prepare, CreateArm, OfferArm, AcceptArm, FreightArm, ReportArm, AnalysisArm, PayloadFits, PurchaseStored,
         CostStored, ReportStored, Sealed, LoadConfig, Gathered, ValidPurchase;
    if c.name.OfferPickup? {
      EvidenceTaken(env, s, c, x, t, st.before, st.refs, v);
      PickupOffer(s, c, x, st, v, arm);
      NewPurchase(env, s, s', c, x, t, st.before, v);
    } else {
      DocRefPlanned(s, c, x, st, v, arm);
      if st.existing && st.refs.purchase != NO_ID {
        PurchaseStays(s, s', c, st.refs.purchase, st.before.quantity);
      }
    }
  }

  lemma CostHere(env: Env, s: State, s': State, c: Command, x: Execution, t: Transient, st: Start, v: Verified,
                 arm: Arm)
    requires st.existing ==> Opened(s, c.batch) && BatchAt(s, c.batch) == st.before && RefsAt(s, c.batch) == st.refs
    requires !st.existing ==> st.refs == EmptyRefs(c.batch)
    requires Admitted(s, c, x, st) && Prepare(env, s, c, x, t, st.before, st.refs) == Ok(v)
             && RunArm(s, c, x, st, v) == Ok(arm)
    requires Sealed(s, s', c) && ProofEffect(s, s', v)
    ensures arm.refs.freight != NO_ID ==> st.existing && CostStored(s', arm.refs.freight, c.batch, st.before.quantity)
  {
    hide Prepare, CreateArm, OfferArm, AcceptArm, FreightArm, ReportArm, AnalysisArm, PayloadFits, PurchaseStored,
         CostStored, ReportStored, Sealed, LoadConfig, Gathered;
    if c.name.RecordFreightCost? {
      EvidenceTaken(env, s, c, x, t, st.before, st.refs, v);
      NewCost(env, s, s', c, x, t, st, v, arm);
    } else {
      ReferencePlanned(s, c, x, st, v, arm);
      if st.existing && st.refs.freight != NO_ID {
        CostStays(s, s', c, st.refs.freight, c.batch, st.before.quantity);
      }
    }
  }

  lemma ReportHere(env: Env, s: State, s': State, c: Command, x: Execution, t: Transient, st: Start, v: Verified,
                   arm: Arm, b: Batch)
    requires st.existing ==> Opened(s, c.batch) && BatchAt(s, c.batch) == st.before && RefsAt(s, c.batch) == st.refs
    requires st.existing ==> LifecycleOk(c.batch, st.before, st.refs)
    requires !st.existing ==> st.refs == EmptyRefs(c.batch)
    requires Admitted(s, c, x, st) && Prepare(env, s, c, x, t, st.before, st.refs) == Ok(v)
             && RunArm(s, c, x, st, v) == Ok(arm)
    requires Sealed(s, s', c) && ProofEffect(s, s', v)
    requires b.id == c.batch && b.lot == arm.b.lot && b.quantity == arm.b.quantity
    ensures arm.refs.report != NO_ID ==> st.existing && ReportStored(s', arm.refs.report, b, arm.refs)
  {
    hide Prepare, CreateArm, OfferArm, AcceptArm, FreightArm, ReportArm, AnalysisArm, PayloadFits, PurchaseStored,
         CostStored, ReportStored, Sealed, ProofEffect, ReportFacts;
    ReferencePlanned(s, c, x, st, v, arm);
    if c.name.ReportRetailPrice? {
      ReportRecorded(env, s, c, x, t, st.before, st.refs, v);
      NewReport(env, s, s', c, x, t, st, v, arm, b);
    } else if st.existing && st.refs.report != NO_ID {
      FinalState(s, c, x, st, v, arm);
      ReportStays(s, s', c, v, st.refs.report, st.before, b, st.refs, arm.refs);
    }
  }

  lemma OpenedKept(env: Env, s: State, s': State, c: Command, x: Execution, t: Transient, st: Start, v: Verified,
                   arm: Arm, b: Batch)
    requires forall id {:trigger BatchKey(id) in s.pub} :: BatchKey(id) in s.pub ==> Opened(s, id)
    requires Admitted(s, c, x, st) && Prepare(env, s, c, x, t, st.before, st.refs) == Ok(v)
             && RunArm(s, c, x, st, v) == Ok(arm)
    requires Sealed(s, s', c) && ProofEffect(s, s', v)
    requires Getters(s, s', c.batch, b, arm.refs) && b.lot == arm.b.lot && b.quantity == arm.b.quantity
    requires st.existing ==> Started(s, c, st) && arm.b.quantity == st.before.quantity
    requires !st.existing ==> st.refs == EmptyRefs(c.batch)
    ensures forall id {:trigger BatchKey(id) in s'.pub} :: BatchKey(id) in s'.pub ==> Opened(s', id)
  {
    hide Prepare, RunArm, PayloadFits, Sealed, ProofEffect, LifecycleOk, PurchaseStored, CostStored, ReportStored;
    if st.existing {
      assert BatchKey(c.batch) in s.pub && Opened(s, c.batch);
    }
    PurchaseHere(env, s, s', c, x, t, st, v, arm);
    CostHere(env, s, s', c, x, t, st, v, arm);
    ReportHere(env, s, s', c, x, t, st, v, arm, b);
    forall id | BatchKey(id) in s'.pub ensures Opened(s', id) {
      if id != c.batch {
        hide Opened;
        OpenedElsewhere(s, s', c, v, id);
      }
    }
  }

  // ==========================================================================
  // Every accepted command keeps the anomaly records, the review counts and the version law.

  predicate IsReview(name: CommandName) {
    name.OpenReview? || name.ResolveReview?
  }

  // ------------------------------------------------------------------ frames

  lemma DerivedStays(s: State, s': State, c: Command, v: Verified, b: Batch, b': Batch, r: Refs, a: AnomalyRecord)
    requires Derived(s, b, r, a) && Sealed(s, s', c) && ProofEffect(s, s', v)
    requires b'.id == b.id && b'.quantity == b.quantity
    ensures Derived(s', b', r, a)
  {
    hide ProofEffect, LoadConfig, PriceScore;
    ConfigStays(s, s', v);
  }

  lemma AnomalyStays(s: State, s': State, c: Command, anomaly: Id)
    requires Sealed(s, s', c) && LoadAnomaly(s, anomaly).Ok?
    requires !(c.payload.ReviewTarget? && anomaly == c.payload.anomaly)
    ensures LoadAnomaly(s', anomaly) == LoadAnomaly(s, anomaly)
  {
  }

  lemma ReviewsAfter(s: State, s': State, c: Command, x: Execution, b: Batch, refs: Refs, v: Verified, anomaly: Id)
    requires ProofPlan(s, c, x, b, refs, v) && ProofEffect(s, s', v) && Fresh(s, v.pub)
    ensures ReviewsOf(s', anomaly) == ReviewsOf(s, anomaly)
              + (if IsReview(c.name) && c.payload.anomaly == anomaly then {c.op} else {})
    ensures IsReview(c.name) ==> c.op !in ReviewsOf(s, c.payload.anomaly)
  {
    forall op
      ensures op in ReviewsOf(s', anomaly) <==>
                op in ReviewsOf(s, anomaly) || (IsReview(c.name) && c.payload.anomaly == anomaly && op == c.op)
    {
      InReviews(s, anomaly, op);
      InReviews(s', anomaly, op);
      hide ReviewsOf;
      assert ReviewRefKey(anomaly, op) in s'.pub
             <==> ReviewRefKey(anomaly, op) in s.pub || ReviewRefKey(anomaly, op) in v.pub;
    }
    if IsReview(c.name) {
      InReviews(s, c.payload.anomaly, c.op);
    }
  }

  lemma InReviews(s: State, anomaly: Id, op: Id)
    ensures op in ReviewsOf(s, anomaly) <==> ReviewRefKey(anomaly, op) in s.pub
  {
    if ReviewRefKey(anomaly, op) in s.pub {
      var k := ReviewRefKey(anomaly, op);
      assert k.ReviewRefKey? && k.anomaly == anomaly && k.op == op;
    }
  }

  // -------------------------------------------------------------- new records

  /** The evaluation wrote a derived record, open exactly when a review is required. */
  ghost predicate EvaluateWrites(s: State, c: Command, b: Batch, refs: Refs, v: Verified) {
    && c.payload.EvaluateInput?
    && AnomalyKey(c.payload.anomaly) in v.priv && v.priv[AnomalyKey(c.payload.anomaly)].AnomalyValue?
    && var a := v.priv[AnomalyKey(c.payload.anomaly)].anomaly;
       && a.anomaly == c.payload.anomaly && Derived(s, b, refs, a)
       && a.review == (if a.score.verdict.ReviewRequired? then Open else NotRequired)
  }

  lemma EvaluateWritten(s: State, c: Command, x: Execution, t: Transient, b: Batch, refs: Refs, v: Verified)
    requires Evaluate(s, c, x, t, b, refs) == Ok(v)
    ensures EvaluateWrites(s, c, b, refs, v)
  {
    hide ValidId, HexId, LoadPurchase, LoadCost, LoadReport, LoadConfig, PriceScore, ReadSalt;
  }

  /** The review moved the record one step and changed nothing else but its salt. */
  ghost predicate ReviewMoves(s: State, c: Command, v: Verified) {
    && c.payload.ReviewTarget? && LoadAnomaly(s, c.payload.anomaly).Ok?
    && AnomalyKey(c.payload.anomaly) in v.priv && v.priv[AnomalyKey(c.payload.anomaly)].AnomalyValue?
    && var a, n := LoadAnomaly(s, c.payload.anomaly).value, v.priv[AnomalyKey(c.payload.anomaly)].anomaly;
       && n == a.(review := n.review, salt := n.salt)
       && a.score.verdict.ReviewRequired?
       && a.review == (if c.name.OpenReview? then Open else InReview)
       && n.review == (if c.name.OpenReview? then InReview else Resolved)
  }

  lemma ReviewMoved(env: Env, s: State, c: Command, x: Execution, t: Transient, b: Batch, v: Verified)
    requires IsReview(c.name) && Review(env, s, c, x, t, b) == Ok(v)
    ensures ReviewMoves(s, c, v)
  {
    hide ValidId, HexId, LoadAnomaly, ReadReview, ReadSalt;
  }

  /** What an analysis command wrote. */
  ghost predicate AnalysisWrites(s: State, c: Command, b: Batch, refs: Refs, v: Verified) {
    && (c.name.EvaluatePrice? ==> EvaluateWrites(s, c, b, refs, v))
    && (IsReview(c.name) ==> ReviewMoves(s, c, v))
  }

  lemma AnalysisWritten(env: Env, s: State, c: Command, x: Execution, t: Transient, b: Batch, refs: Refs, v: Verified)
    requires Prepare(env, s, c, x, t, b, refs) == Ok(v)
    ensures AnalysisWrites(s, c, b, refs, v)
  {
    hide Evaluate, Review, GatherDocuments, TakeReport, EvaluateWrites, ReviewMoves;
    if c.name.EvaluatePrice? {
      EvaluateWritten(s, c, x, t, b, refs, v);
    } else if IsReview(c.name) {
      ReviewMoved(env, s, c, x, t, b, v);
    }
  }

  // ------------------------------------------------------------------ scores

  /** How an analysed batch looks after the command: the same batch and slots, up to version and time. */
  ghost predicate SameSubject(s: State, s': State, id: Id) {
    && RefsAt(s', id) == RefsAt(s, id)
    && BatchAt(s', id).id == BatchAt(s, id).id && BatchAt(s', id).quantity == BatchAt(s, id).quantity
  }

  lemma ScoredStays(s: State, s': State, c: Command, x: Execution, st: Start, v: Verified, id: Id)
    requires EvaluationKey(id) in s.pub && s.pub[EvaluationKey(id)].EvaluationValue? && Scored(s, id)
    requires EvaluationKey(id) in s'.pub && s'.pub[EvaluationKey(id)] == s.pub[EvaluationKey(id)]
    requires SameSubject(s, s', id) && Sealed(s, s', c) && ProofEffect(s, s', v) && Fresh(s, v.pub)
    requires ProofPlan(s, c, x, st.before, st.refs, v)
    requires IsReview(c.name) ==>
               c.payload.ReviewTarget? && s.pub[EvaluationKey(id)].evaluation.anomaly != c.payload.anomaly
    requires !IsReview(c.name) ==> !c.payload.ReviewTarget?
    ensures Scored(s', id)
  {
    hide BatchAt, RefsAt, Derived, ProofPlan, ProofEffect, Fresh, ReviewsOf, LoadAnomaly, Sealed;
    var e := s.pub[EvaluationKey(id)].evaluation;
    AnomalyStays(s, s', c, e.anomaly);
    ReviewsAfter(s, s', c, x, st.before, st.refs, v, e.anomaly);
    DerivedStays(s, s', c, v, BatchAt(s, id), BatchAt(s', id), RefsAt(s, id), LoadAnomaly(s, e.anomaly).value);
  }

  lemma ScoredReviewed(s: State, s': State, c: Command, x: Execution, st: Start, v: Verified, id: Id)
    requires EvaluationKey(id) in s.pub && s.pub[EvaluationKey(id)].EvaluationValue? && Scored(s, id)
    requires EvaluationKey(id) in s'.pub && s'.pub[EvaluationKey(id)] == s.pub[EvaluationKey(id)]
    requires SameSubject(s, s', id) && Sealed(s, s', c) && ProofEffect(s, s', v) && Fresh(s, v.pub)
    requires ProofPlan(s, c, x, st.before, st.refs, v) && ReviewMoves(s, c, v)
    requires IsReview(c.name) && s.pub[EvaluationKey(id)].evaluation.anomaly == c.payload.anomaly
    ensures Scored(s', id)
  {
    hide BatchAt, RefsAt, Derived, ProofPlan, ReviewsOf, Sealed, Fresh;
    var e := s.pub[EvaluationKey(id)].evaluation;
    var a := LoadAnomaly(s, e.anomaly).value;
    ReviewsAfter(s, s', c, x, st.before, st.refs, v, e.anomaly);
    assert AnomalyKey(e.anomaly) in s'.priv && s'.priv[AnomalyKey(e.anomaly)] == v.priv[AnomalyKey(e.anomaly)];
    DerivedStays(s, s', c, v, BatchAt(s, id), BatchAt(s', id), RefsAt(s, id), a);
    hide ProofEffect;
    var n := LoadAnomaly(s', e.anomaly).value;
    DerivedSalted(s', BatchAt(s', id), RefsAt(s', id), a, n);
  }

  lemma DerivedSalted(s: State, b: Batch, r: Refs, a: AnomalyRecord, n: AnomalyRecord)
    requires Derived(s, b, r, a) && n == a.(review := n.review, salt := n.salt)
    ensures Derived(s, b, r, n)
  {
    hide PriceScore;
  }

  lemma ScoredNew(s: State, s': State, c: Command, x: Execution, st: Start, v: Verified)
    requires c.name.EvaluatePrice? && ProofPlan(s, c, x, st.before, st.refs, v)
             && EvaluateWrites(s, c, st.before, st.refs, v)
    requires Sealed(s, s', c) && ProofEffect(s, s', v) && Fresh(s, v.pub) && Guarded(s)
    requires st.before.id == c.batch && BatchAt(s, c.batch) == st.before && RefsAt(s, c.batch) == st.refs
    requires SameSubject(s, s', c.batch)
    ensures EvaluationKey(c.batch) in s'.pub && s'.pub[EvaluationKey(c.batch)].EvaluationValue? && Scored(s', c.batch)
  {
    hide BatchAt, RefsAt, Derived, ReviewsOf, Sealed, Guarded;
    var anomaly := c.payload.anomaly;
    assert EvaluationKey(c.batch) in s'.pub && s'.pub[EvaluationKey(c.batch)].EvaluationValue?;
    assert AnomalyKey(anomaly) in s'.priv && s'.priv[AnomalyKey(anomaly)] == v.priv[AnomalyKey(anomaly)];
    assert AnomalyRefKey(anomaly) !in s.pub;
    ReviewsAfter(s, s', c, x, st.before, st.refs, v, anomaly);
    NoReviews(s, anomaly);
    DerivedStays(s, s', c, v, st.before, BatchAt(s', c.batch), st.refs, v.priv[AnomalyKey(anomaly)].anomaly);
  }

  lemma NoReviews(s: State, anomaly: Id)
    requires Guarded(s) && AnomalyRefKey(anomaly) !in s.pub
    ensures ReviewsOf(s, anomaly) == {}
  {
    forall op ensures op !in ReviewsOf(s, anomaly) {
      InReviews(s, anomaly, op);
    }
  }

  /** Everything about the step that the analysis records depend on. */
  ghost predicate AnalysisStep(s: State, s': State, c: Command, x: Execution, st: Start, v: Verified, arm: Arm,
                               b: Batch) {
    && Evaluations(s) && Guarded(s) && Analysed(s)
    && ProofPlan(s, c, x, st.before, st.refs, v) && AnalysisWrites(s, c, st.before, st.refs, v)
    && Sealed(s, s', c) && ProofEffect(s, s', v) && Fresh(s, v.pub)
    && Getters(s, s', c.batch, b, arm.refs)
    && (if st.existing then Started(s, c, st) && st.before.id == c.batch
        else BatchKey(c.batch) !in s.pub && c.name.CreateBatch?)
    && (st.existing && (st.before.state.RetailReported? || IsAnalysis(c.name)) ==>
          IsAnalysis(c.name) && b.quantity == st.before.quantity && arm.refs == st.refs)
    && (IsReview(c.name) <==> c.payload.ReviewTarget?)
  }

  lemma EvaluationStays(s: State, s': State, c: Command, x: Execution, st: Start, v: Verified, arm: Arm, b: Batch,
                        id: Id)
    requires AnalysisStep(s, s', c, x, st, v, arm, b) && EvaluationKey(id) in s.pub
    ensures s.pub[EvaluationKey(id)].EvaluationValue? && Scored(s, id)
    ensures EvaluationKey(id) in s'.pub && s'.pub[EvaluationKey(id)] == s.pub[EvaluationKey(id)]
    ensures SameSubject(s, s', id)
    ensures IsReview(c.name) ==> (s.pub[EvaluationKey(id)].evaluation.anomaly == c.payload.anomaly <==> id == c.batch)
  {
    hide Scored, BatchAt, RefsAt, Sealed, Guarded, AnalysisWrites;
    var e := s.pub[EvaluationKey(id)].evaluation;
    assert e.batch == id && BatchKey(id) in s.pub && BatchAt(s, id).state.RetailReported?;
    assert EvaluationKey(id) !in v.pub;
    if IsReview(c.name) {
      assert st.existing && EvaluationKey(c.batch) in s.pub;
      assert AnomalyRefKey(e.anomaly) in s.pub && s.pub[AnomalyRefKey(e.anomaly)] == EvaluationValue(e);
      var e' := s.pub[EvaluationKey(c.batch)].evaluation;
      assert AnomalyRefKey(e'.anomaly) in s.pub && s.pub[AnomalyRefKey(e'.anomaly)] == EvaluationValue(e');
    }
  }

  lemma EvaluationStarts(s: State, s': State, c: Command, x: Execution, st: Start, v: Verified, arm: Arm, b: Batch,
                         id: Id)
    requires AnalysisStep(s, s', c, x, st, v, arm, b) && EvaluationKey(id) in s'.pub && EvaluationKey(id) !in s.pub
    ensures c.name.EvaluatePrice? && id == c.batch && st.existing && SameSubject(s, s', c.batch)
  {
    hide BatchAt, RefsAt, Sealed, Guarded, AnalysisWrites, Evaluations, Analysed;
    assert EvaluationKey(id) in v.pub;
  }

  lemma AnalysedKept(s: State, s': State, c: Command, x: Execution, st: Start, v: Verified, arm: Arm, b: Batch)
    requires AnalysisStep(s, s', c, x, st, v, arm, b)
    ensures Analysed(s')
  {
    forall id | EvaluationKey(id) in s'.pub ensures s'.pub[EvaluationKey(id)].EvaluationValue? && Scored(s', id) {
      AnalysedAt(s, s', c, x, st, v, arm, b, id);
    }
  }

  lemma AnalysedAt(s: State, s': State, c: Command, x: Execution, st: Start, v: Verified, arm: Arm, b: Batch, id: Id)
    requires AnalysisStep(s, s', c, x, st, v, arm, b) && EvaluationKey(id) in s'.pub
    ensures s'.pub[EvaluationKey(id)].EvaluationValue? && Scored(s', id)
  {
    hide Scored, BatchAt, RefsAt, Sealed, Guarded, EvaluateWrites, ReviewMoves, ProofPlan, ProofEffect, Fresh,
         Evaluations, Analysed, SameSubject, LifecycleOk;
    if EvaluationKey(id) !in s.pub {
      EvaluationStarts(s, s', c, x, st, v, arm, b, id);
      ScoredNew(s, s', c, x, st, v);
    } else {
      EvaluationStays(s, s', c, x, st, v, arm, b, id);
      if IsReview(c.name) && id == c.batch {
        ScoredReviewed(s, s', c, x, st, v, id);
      } else {
        ScoredStays(s, s', c, x, st, v, id);
      }
    }
  }

  // ---------------------------------------------------------------- versions

  /** How far a command moves the state and the freight slot. */
  ghost predicate RankPlan(c: Command, st: Start, arm: Arm) {
    var was := if st.existing then Rank(st.before.state) else 0;
    Rank(arm.b.state) + (if arm.refs.freight != NO_ID then 1 else 0)
    == was + (if st.refs.freight != NO_ID then 1 else 0) + (if IsAnalysis(c.name) then 0 else 1)
  }

  lemma RankPlanned(s: State, c: Command, x: Execution, st: Start, v: Verified, arm: Arm)
    requires Admitted(s, c, x, st) && RunArm(s, c, x, st, v) == Ok(arm)
    ensures RankPlan(c, st, arm)
  {
    hide ValidId, ValidPurchase, Consume, PickupDocuments, EmptyRefs, Fits64, RequiredCaller, QuantityOk;
    match c.name
    case OfferPickup => PickupNotEmpty(s, c, st, v);
    case RecordFreightCost => PrefixNotEmpty(c.payload.cost, "CST");
    case _ =>
  }

  lemma StepsReviewed(s: State, s': State, c: Command, x: Execution, st: Start, v: Verified, arm: Arm, b: Batch)
    requires AnalysisStep(s, s', c, x, st, v, arm, b) && EvaluationKey(c.batch) in s.pub
    ensures IsReview(c.name) && AnalysisSteps(s', c.batch) == AnalysisSteps(s, c.batch) + 1
  {
    hide BatchAt, RefsAt, Guarded, Derived, ReviewsOf, Sealed;
    assert IsReview(c.name) by {
      var e := s.pub[EvaluationKey(c.batch)].evaluation;
      assert e.batch == c.batch && BatchAt(s, c.batch).state.RetailReported?;
    }
    EvaluationStays(s, s', c, x, st, v, arm, b, c.batch);
    hide Evaluations, LifecycleOk;
    assert AnomalyKey(c.payload.anomaly) in s'.priv;
  }

  lemma StepsHere(s: State, s': State, c: Command, x: Execution, st: Start, v: Verified, arm: Arm, b: Batch)
    requires AnalysisStep(s, s', c, x, st, v, arm, b)
    ensures AnalysisSteps(s', c.batch) == AnalysisSteps(s, c.batch) + (if IsAnalysis(c.name) then 1 else 0)
  {
    hide Guarded, Derived, Evaluations, Analysed, Sealed, Started, Getters, SameSubject, ReviewMoves, DocKeysOnly,
         Fresh;
    if EvaluationKey(c.batch) in s.pub {
      StepsReviewed(s, s', c, x, st, v, arm, b);
    } else if EvaluationKey(c.batch) in s'.pub {
      EvaluationStarts(s, s', c, x, st, v, arm, b, c.batch);
      assert AnomalyKey(c.payload.anomaly) in s'.priv;
    }
  }

  lemma StepsElsewhere(s: State, s': State, c: Command, x: Execution, st: Start, v: Verified, arm: Arm, b: Batch,
                       id: Id)
    requires AnalysisStep(s, s', c, x, st, v, arm, b) && id != c.batch
    ensures AnalysisSteps(s', id) == AnalysisSteps(s, id)
  {
    hide BatchAt, RefsAt, Guarded, Derived, ReviewsOf, LifecycleOk, Sealed, Evaluations, ProofPlan, ProofEffect;
    if EvaluationKey(id) in s.pub {
      EvaluationStays(s, s', c, x, st, v, arm, b, id);
      AnomalyStays(s, s', c, s.pub[EvaluationKey(id)].evaluation.anomaly);
    } else if EvaluationKey(id) in s'.pub {
      EvaluationStarts(s, s', c, x, st, v, arm, b, id);
    }
  }

  lemma VersionedKept(s: State, s': State, c: Command, x: Execution, st: Start, v: Verified, arm: Arm, b: Batch)
    requires Versioned(s) && AnalysisStep(s, s', c, x, st, v, arm, b) && RankPlan(c, st, arm)
    requires b.version == st.before.version + 1 && b.state == arm.b.state
    requires !st.existing ==> st == Start(false, ZERO_BATCH, EmptyRefs(c.batch))
    ensures Versioned(s')
  {
    hide Analysed, AnalysisWrites, Evaluations, LifecycleOk, ProofEffect, AnalysisSteps, Guarded, RefsAt, ProofPlan,
         Sealed, BatchAt, IsReview, Fresh, Rank, IsAnalysis;
    StepsHere(s, s', c, x, st, v, arm, b);
    forall id | BatchKey(id) in s'.pub ensures BatchAt(s', id).version == VersionOf(s', id) {
      if id != c.batch {
        StepsElsewhere(s, s', c, x, st, v, arm, b, id);
      } else if !st.existing {
        NoSteps(s, c.batch);
      }
      hide AnalysisSteps, BatchAt, RefsAt, Guarded, Sealed, ProofPlan, ProofEffect, Evaluations, Analysed, LifecycleOk;
    }
  }

  lemma NoSteps(s: State, id: Id)
    requires Evaluations(s) && BatchKey(id) !in s.pub
    ensures AnalysisSteps(s, id) == 0
  {
  }

  // ----------------------------------------------------------- configuration

  lemma ConfiguredKept(env: Env, s: State, s': State, c: Command, x: Execution, st: Start, v: Verified, b: Batch,
                       r: Refs)
    requires Configured(s) && Admit(env, s, c, x) == Ok(st) && ProofEffect(s, s', v) && Getters(s, s', c.batch, b, r)
    ensures Configured(s')
  {
    ConfigStays(s, s', v);
    assert LoadConfig(s).Ok?;
    hide Admit, BatchAt, RefsAt;
  }
}
