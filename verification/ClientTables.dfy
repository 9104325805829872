// What the tables and threads of one client always satisfy in a disciplined run.
module ClientTables {
  import opened PlainFile
  import opened Wrappers
  import opened Client
  import opened System

  // Tracked descriptors are open local descriptors of the same path; acknowledged ones are redirected.
  ghost predicate TablesOk(cfg: Config, cl: ClientState) {
    && |cl.counters| == cfg.servers
    && (forall fd :: fd in cl.local ==> cl.local[fd].path in cfg.pfs)
    && (forall fd :: fd in cl.fdMap ==> fd in cl.local && cl.fdMap[fd] == cl.local[fd].path)
    && (forall fd :: fd in cl.acked ==> fd in cl.fdMap && fd in cl.redir)
  }

  // A thread on its way to a server is bound for the host of its tracked descriptor.
  ghost predicate ThreadOk(cfg: Config, cl: ClientState, th: Thread)
    requires cfg.servers > 0
  {
    && (Busy(th) ==> th.op.fd in cl.local)
    && (th.Passed? || th.Waiting? ==> th.op.fd in cl.fdMap && th.host == HostOf(cfg, cl.fdMap[th.op.fd]))
    && ((th.Passed? || th.Waiting?) && th.op.OpOpen? ==> th.op.path == cl.fdMap[th.op.fd])
    && (th.Waiting? ==> !th.op.OpClose?)
  }

  ghost predicate ThreadsOk(cfg: Config, cl: ClientState)
    requires cfg.servers > 0
  {
    forall t :: 0 <= t < |cl.threads| ==> ThreadOk(cfg, cl, cl.threads[t])
  }

  ghost predicate Apart(cl: ClientState) {
    forall t, u :: 0 <= t < |cl.threads| && 0 <= u < |cl.threads| && t != u
                   && Exclusive(cl.threads[t]) && Busy(cl.threads[u]) ==>
      cl.threads[t].op.fd != cl.threads[u].op.fd
  }

  ghost predicate ClientOk(cfg: Config, cl: ClientState)
    requires cfg.servers > 0
  {
    TablesOk(cfg, cl) && ThreadsOk(cfg, cl) && Apart(cl)
  }

  lemma StartOk(cfg: Config, threads: nat)
    requires cfg.servers > 0
    ensures ClientOk(cfg, Start(cfg, threads))
  {
  }

  lemma OpenCallOk(cfg: Config, cl: ClientState, t: nat, op: Op, tracked: bool)
    requires cfg.servers > 0 && ClientOk(cfg, cl) && CanDo(cfg, cl, Call(t, op, tracked)) && op.OpOpen?
    ensures ClientOk(cfg, DoCall(cfg, cl, t, op, tracked))
  {
  }

  lemma UseCallOk(cfg: Config, cl: ClientState, t: nat, op: Op, tracked: bool)
    requires cfg.servers > 0 && ClientOk(cfg, cl) && CanDo(cfg, cl, Call(t, op, tracked))
    requires !op.OpOpen? && !op.OpClose? && Polite(cl, t, op)
    ensures ClientOk(cfg, DoCall(cfg, cl, t, op, tracked))
  {
  }

  lemma CloseCallOk(cfg: Config, cl: ClientState, t: nat, op: Op, tracked: bool)
    requires cfg.servers > 0 && ClientOk(cfg, cl) && CanDo(cfg, cl, Call(t, op, tracked))
    requires op.OpClose? && Polite(cl, t, op)
    ensures ClientOk(cfg, DoCall(cfg, cl, t, op, tracked))
  {
  }

  lemma CallOk(cfg: Config, cl: ClientState, t: nat, op: Op, tracked: bool)
    requires cfg.servers > 0 && ClientOk(cfg, cl) && CanDo(cfg, cl, Call(t, op, tracked))
    requires op.OpOpen? || Polite(cl, t, op)
    ensures ClientOk(cfg, DoCall(cfg, cl, t, op, tracked))
  {
    if op.OpOpen? {
      OpenCallOk(cfg, cl, t, op, tracked);
    } else if op.OpClose? {
      CloseCallOk(cfg, cl, t, op, tracked);
    } else {
      UseCallOk(cfg, cl, t, op, tracked);
    }
  }

  lemma SendOk(cfg: Config, cl: ClientState, t: nat, id: nat)
    requires cfg.servers > 0 && ClientOk(cfg, cl) && CanDo(cfg, cl, Send(t, id))
    ensures ClientOk(cfg, DoSend(cfg, cl, t, id))
  {
  }

  lemma AnswerOk(cfg: Config, cl: ClientState, e: Client.Event)
    requires cfg.servers > 0 && ClientOk(cfg, cl)
    requires e.OpenAnswer? || e.ReadAnswer? || e.SeekAnswer?
    ensures ClientOk(cfg, Do(cfg, cl, e))
  {
  }

  lemma OtherOk(cfg: Config, cl: ClientState, e: Client.Event)
    requires cfg.servers > 0 && ClientOk(cfg, cl) && CanDo(cfg, cl, e)
    requires e.Wake? || e.TimeOut? || e.Return? || e.InitAgain?
    ensures ClientOk(cfg, Do(cfg, cl, e))
  {
  }
}
