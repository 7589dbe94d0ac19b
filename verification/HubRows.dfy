/**
 What the hub's event rows say in every run: each row's counts, model and time are those of one line some file holds,
 or of one event another device sent; its device is the one that sent it; and it leaves out nothing that arrived.
 */
module HubRows {
  import opened Ingest
  import opened EventRows
  import opened EventHistory
  import opened EventOrigins
  import opened Pipeline
  import opened EndToEnd
  import Delivery
  import Hubs

  // ---------------------------------------------------------------- what arrived

  ghost predicate Arrived(arrivals: seq<Envelope>, s: Sighting, env: Envelope) {
    env in arrivals && env.kind.Events? && s.event in env.events && s.origin == Self
  }

  lemma SightingsSnoc(h: seq<EventHistory.Delivery>, d: EventHistory.Delivery)
    ensures Sightings(h + [d]) == Sightings(h) + SightingsOf(d.events, d.origin)
  {
    assert (h + [d])[..|h|] == h;
  }

  lemma ArrivedSnoc(init: seq<Envelope>, last: Envelope, s: Sighting)
    ensures (exists env :: Arrived(init + [last], s, env)) <==> (exists env :: Arrived(init, s, env)) || Arrived([last], s, last)
  {
    if env :| Arrived(init + [last], s, env) {
      if env == last { assert last in [last]; } else { assert Arrived(init, s, env); }
    }
    if env :| Arrived(init, s, env) { assert Arrived(init + [last], s, env); }
    if Arrived([last], s, last) { assert Arrived(init + [last], s, last); }
  }

  /** The hub has seen exactly what the applied envelopes contain. */
  lemma {:induction false} SightingsArrived(arrivals: seq<Envelope>, s: Sighting)
    ensures s in Sightings(Delivery.EventArrivals(arrivals)) <==> exists env :: Arrived(arrivals, s, env)
  {
    if arrivals != [] {
      var init, last := arrivals[..|arrivals| - 1], arrivals[|arrivals| - 1];
      SightingsArrived(init, s);
      ArrivedSnoc(init, last, s);
      assert arrivals == init + [last];
      SightingsSnoc(Delivery.EventArrivals(init), EventHistory.Delivery(last.events, Self));
    }
  }

  ghost predicate AllArrivedWellFormed(net: Delivery.World) {
    forall env :: env in net.arrivals ==> WellFormed(env)
  }

  lemma ArrivalsStep(cfg: Delivery.Config, net: Delivery.World, d: Delivery.Step)
    requires Delivery.Inv(cfg, net) && Delivery.Enabled(cfg, net, d) && AllArrivedWellFormed(net)
    ensures AllArrivedWellFormed(Delivery.Next(cfg, net, d))
  {
    var net' := Delivery.Next(cfg, net, d);
    if net'.arrivals != net.arrivals {
      assert d.Deliver? || d.Foreign?;
      assert net'.arrivals == net.arrivals + [d.request];
      if d.Deliver? {
        var i := Delivery.SentRequest(cfg, net, d.request);
        assert d.request in net.history;
      }
    }
  }

  lemma SendArrivals(s: Setup, w: World, step: Pipeline.Step)
    requires Hubs.Valid(w.net.hub) && !step.Net?
    ensures Next(s, w, step).net.arrivals == w.net.arrivals
  {
  }

  lemma {:induction false} ArrivalsAreWellFormed(s: Setup, steps: seq<Pipeline.Step>, w: World)
    requires GoodSetup(s) && Run(s, steps, w)
    ensures AllArrivedWellFormed(w.net)
    decreases |steps|
  {
    if steps != [] {
      var last := steps[|steps| - 1];
      var mid :| Run(s, steps[..|steps| - 1], mid) && Takes(s, mid, last, w);
      ArrivalsAreWellFormed(s, steps[..|steps| - 1], mid);
      RunInv(s, steps[..|steps| - 1], mid);
      WellFormedStep(s, mid, last);
    }
  }

  lemma WellFormedStep(s: Setup, w: World, step: Pipeline.Step)
    requires Delivery.Inv(s.cfg, w.net) && Enabled(s, w, step) && AllArrivedWellFormed(w.net)
    ensures AllArrivedWellFormed(Next(s, w, step).net)
  {
    if step.Net? {
      ArrivalsStep(s.cfg, w.net, step.step);
    } else {
      SendArrivals(s, w, step);
    }
  }

  // ---------------------------------------------------------------- what a row says

  /** The figures a row counts under its id. */
  function Figures(id: string, r: Row): Stamp {
    Stamp(id, r.ts, r.model, r.counts)
  }

  /** Another device sent one event with just these figures. */
  ghost predicate SentByOther(device: string, arrivals: seq<Envelope>, st: Stamp) {
    exists env, e :: env in arrivals && env.deviceID != device && env.kind.Events? && e in env.events && StampOf(e) == st
  }

  lemma {:induction false} AllStampsMember(envs: seq<Envelope>, env: Envelope)
    requires env in envs
    ensures EnvelopeStamps(env) <= AllStamps(envs)
  {
    if env != envs[|envs| - 1] {
      assert envs == envs[..|envs| - 1] + [envs[|envs| - 1]];
      AllStampsMember(envs[..|envs| - 1], env);
    }
  }

  lemma {:induction false} OwnAreOwn(device: string, arrivals: seq<Envelope>, env: Envelope)
    requires env in arrivals && env.deviceID == device
    ensures env in Delivery.Own(device, arrivals)
  {
    if env != arrivals[|arrivals| - 1] {
      assert arrivals == arrivals[..|arrivals| - 1] + [arrivals[|arrivals| - 1]];
      OwnAreOwn(device, arrivals[..|arrivals| - 1], env);
    }
  }

  /** What this device sent was accepted, and what was accepted some file says. */
  lemma OwnArrivalIsLogged(s: Setup, w: World, env: Envelope, e: Event)
    requires Inv(s, w) && env in w.net.arrivals && env.deviceID == s.cfg.device && env.kind.Events? && e in env.events
    ensures StampOf(e) in Accepted(w)
  {
    OwnAreOwn(s.cfg.device, w.net.arrivals, env);
    assert env in w.net.history[..Delivery.Applied(s.cfg, w.net)];
    assert env in w.net.history && WellFormed(env);
    AllStampsMember(w.net.history, env);
    assert StampOf(e) in EnvelopeStamps(env);
  }

  lemma RowWasSighted(s: Setup, w: World, id: string) returns (x: Sighting, env: Envelope)
    requires Inv(s, w) && id in w.net.hub.events.rows
    ensures Arrived(w.net.arrivals, x, env) && x.event.id == id && StampOf(x.event) == Figures(id, w.net.hub.events.rows[id])
  {
    var h := Delivery.EventArrivals(w.net.arrivals);
    StoredValuesWereDelivered(h);
    var r := w.net.hub.events.rows[id];
    assert ColumnDrawn(r, Measure, Of(Sightings(h), id));
    x :| x in Of(Sightings(h), id) && Shows(r, Measure, x);
    SightingsArrived(w.net.arrivals, x);
    env :| Arrived(w.net.arrivals, x, env);
  }

  /**
   In every run, at any moment, each row's counts, model and time are what one line of some file says that the device
   has read, or what one event says that another device sent. No premise on identities.
   */
  lemma RowsSayWhatWasLogged(s: Setup, steps: seq<Pipeline.Step>, w: World, id: string)
    requires GoodSetup(s) && Run(s, steps, w) && id in w.net.hub.events.rows
    ensures var st := Figures(id, w.net.hub.events.rows[id]);
            (exists path :: path in w.logs && From(s, w.logs, w.cursor, path, st)) || SentByOther(s.cfg.device, w.net.arrivals, st)
  {
    RunInv(s, steps, w);
    var x, env := RowWasSighted(s, w, id);
    if env.deviceID == s.cfg.device {
      OwnArrivalIsLogged(s, w, env, x.event);
    }
  }

  /** Once the outbox is empty and no pass is unfinished, that line is in a committed prefix. */
  lemma DrainedRowsSayWhatIsCommitted(s: Setup, steps: seq<Pipeline.Step>, w: World, id: string)
    requires GoodSetup(s) && Run(s, steps, w) && Drained(w) && id in w.net.hub.events.rows
    ensures var st := Figures(id, w.net.hub.events.rows[id]);
            || (exists path :: path in w.logs && st in WindowStamps(s, path, CommittedPrefix(w, path)))
            || SentByOther(s.cfg.device, w.net.arrivals, st)
  {
    RowsSayWhatWasLogged(s, steps, w, id);
    var st := Figures(id, w.net.hub.events.rows[id]);
    if path :| path in w.logs && From(s, w.logs, w.cursor, path, st) {
      ReadIsCommitted(s, w, path, st);
    }
  }

  /** Every row is filed under a device that sent an event with that id, as its own. */
  lemma RowsBelongToTheirSender(s: Setup, steps: seq<Pipeline.Step>, w: World, id: string)
    requires GoodSetup(s) && Run(s, steps, w) && id in w.net.hub.events.rows
    ensures w.net.hub.events.rows[id].origin == Self
    ensures exists env :: env in w.net.arrivals && id in EnvelopeIds(env) && env.deviceID == w.net.hub.events.rows[id].device
  {
    RunInv(s, steps, w);
    ArrivalsAreWellFormed(s, steps, w);
    var h := Delivery.EventArrivals(w.net.arrivals);
    StoredValuesWereDelivered(h);
    var r := w.net.hub.events.rows[id];
    assert ColumnDrawn(r, Owner, Of(Sightings(h), id));
    var x :| x in Of(Sightings(h), id) && Shows(r, Owner, x);
    SightingsArrived(w.net.arrivals, x);
    var env :| Arrived(w.net.arrivals, x, env);
    assert WellFormed(env) && id in EnvelopeIds(env);
  }

  /** Where ids name generations, a row has taken in every event with its id that ever arrived. */
  lemma RowsLeaveNothingOut(idy: Identity, s: Setup, steps: seq<Pipeline.Step>, w: World, env: Envelope, e: Event)
    requires GoodSetup(s) && Run(s, steps, w) && Stable(idy, s, w)
    requires env in w.net.arrivals && env.kind.Events? && e in env.events && e.id in w.net.hub.events.rows && e.id != ""
    ensures TakenIn(w.net.hub.events.rows[e.id], Sighting(e, Self))
  {
    RunInv(s, steps, w);
    RunFaithful(idy, s, steps, w);
    ArrivedAreFaithful(idy, w.net.arrivals);
    assert Arrived(w.net.arrivals, Sighting(e, Self), env);
    SightingsArrived(w.net.arrivals, Sighting(e, Self));
    EverySightingIsTakenIn(idy, Delivery.EventArrivals(w.net.arrivals), Sighting(e, Self));
  }
}
