/**
  State Machine Safety, exactly: the code as written has it for every run of a cluster if
  and only if the cluster has at most two servers; with the reset that the field comment
  promises, every cluster has it.
 */
module RaftExact {
  import opened RaftNode
  import opened RaftProtocol
  import RaftInvariant
  import RaftActions
  import opened RaftBelief
  import opened RaftCommit
  import opened RaftStale

  // No two servers, at any two times of any run, have committed different entries.
  ghost predicate AlwaysSafe(cfg: Config) {
    forall ws, acts :: IsRun(cfg, ws, acts) ==> NoConflict(ws)
  }

  ghost predicate NoConflict(ws: seq<World>) {
    forall a: nat, b: nat, p: nat, q: nat, k: nat :: a < |ws| && b < |ws| ==> !Conflict(ws[a], ws[b], p, q, k)
  }

  lemma TrustedNoConflict(cfg: Config, ws: seq<World>, acts: seq<Action>, a: nat, b: nat, p: nat, q: nat, k: nat)
    requires IsRun(cfg, ws, acts) && Trusted(cfg, ws) && a <= b < |ws|
    ensures !Conflict(ws[a], ws[b], p, q, k) && !Conflict(ws[b], ws[a], p, q, k)
  {
    hide IsRun, Trusted, RaftInvariant.Inv, RaftInvariant.Later;
    RaftActions.RunInv(cfg, ws, acts, a, b);
    if p < cfg.n && q < cfg.n {
      StateMachineSafety(cfg, ws, acts, a, b, p, q, k);
      StateMachineSafety(cfg, ws, acts, a, b, q, p, k);
      Same(ws[a].peers[p].node, ws[b].peers[q].node, k);
      Same(ws[a].peers[q].node, ws[b].peers[p].node, k);
    }
  }

  lemma Same(x: Node, y: Node, k: nat)
    ensures k < |x.logs| && k < |y.logs| && x.logs[..k + 1] == y.logs[..k + 1] ==> x.logs[k] == y.logs[k]
  {
    if k < |x.logs| && k < |y.logs| && x.logs[..k + 1] == y.logs[..k + 1] {
      assert x.logs[..k + 1][k] == y.logs[..k + 1][k];
    }
  }

  lemma SafeExactly(n: nat, reset: bool)
    ensures AlwaysSafe(Config(n, reset)) <==> reset || n <= 2
  {
    hide IsRun, Conflict, Trusted;
    var cfg := Config(n, reset);
    if reset || n <= 2 {
      forall ws, acts | IsRun(cfg, ws, acts) ensures NoConflict(ws) {
        TrustedRun(cfg, ws, acts);
        forall a: nat, b: nat, p: nat, q: nat, k: nat | a < |ws| && b < |ws| ensures !Conflict(ws[a], ws[b], p, q, k) {
          if a <= b {
            TrustedNoConflict(cfg, ws, acts, a, b, p, q, k);
          } else {
            TrustedNoConflict(cfg, ws, acts, b, a, p, q, k);
          }
        }
      }
    } else {
      SomeConflict(n);
    }
  }

  lemma SomeConflict(n: nat)
    requires n >= 3
    ensures !AlwaysSafe(Config(n, false))
  {
    hide Conflict, Enabled, Act, CalmStep;
    StaleMatchIndexBreaksSafety(n);
    var ws, acts :| CalmRun(n, ws, acts) && Conflict(ws[|ws| - 1], ws[|ws| - 1], 0, 2, 2);
    assert IsRun(Config(n, false), ws, acts) && !NoConflict(ws);
  }

  lemma TrustedRun(cfg: Config, ws: seq<World>, acts: seq<Action>)
    requires IsRun(cfg, ws, acts) && (cfg.reset || cfg.n <= 2)
    ensures Trusted(cfg, ws)
  {
    hide IsRun, FreshWins;
    if cfg.n > 2 { ResetIsFresh(cfg, ws, acts); }
  }
}
