/** The Cognito app clients behind the registrar. */
module Cognito {
  import opened Wrappers
  import R = Registry

  /** Some id that was never handed out. */
  method FreshId(used: set<R.Id>) returns (id: R.Id)
    ensures id !in used && id != ""
  {
    var longest: nat, todo := 0, used;
    while todo != {}
      invariant todo <= used && forall x | x in used - todo :: |x| <= longest
      decreases |todo|
    {
      var x :| x in todo;
      if |x| > longest { longest := |x|; }
      todo := todo - {x};
    }
    id := seq(longest + 1, _ => 'x');
    assert forall x | x in used :: x in used - todo && |x| < |id|;
  }

  lemma FreshIdExists(used: set<R.Id>) returns (id: R.Id)
    ensures id !in used && id != ""
  {
    var n := LongestId(used);
    id := seq(n + 1, _ => 'x');
  }

  lemma LongestId(used: set<R.Id>) returns (n: nat)
    ensures forall x | x in used :: |x| <= n
  {
    if used == {} {
      n := 0;
    } else {
      var x :| x in used;
      var m := LongestId(used - {x});
      n := if |x| > m then |x| else m;
      assert forall y | y in used :: y == x || y in used - {x};
    }
  }

  /** A user pool. Any call may raise, and a change that raises may or may not have happened. */
  class CognitoOps {
    var apps: map<R.Id, seq<string>>
    var issued: set<R.Id>
    /** The app clients with a login page of their own. */
    var branded: set<R.Id>
    /** The app client the running invocation has created but not yet written, and those never written. */
    ghost var pending: Option<R.Id>
    ghost var orphans: set<R.Id>
    /** How many calls have raised. */
    ghost var failures: nat

    constructor ()
      ensures apps == map[] && issued == {} && branded == {} && pending == None && orphans == {} && failures == 0
    {
      apps, issued, branded, pending, orphans, failures := map[], {}, {}, None, {}, 0;
    }

    /** One call to Cognito; it may raise. */
    method Answered() returns (ok: bool)
      modifies this`failures
      ensures failures == old(failures) + if ok then 0 else 1
    {
      ok := *;
      if !ok { failures := failures + 1; }
    }

    method CreateClient(callbacks: seq<string>) returns (ok: bool, id: R.Id, ghost applied: bool)
      modifies this`apps, this`issued, this`pending, this`failures
      ensures failures == old(failures) + if ok then 0 else 1
      ensures id !in old(issued) && id != ""
      ensures applied ==> apps == old(apps)[id := callbacks] && issued == old(issued) + {id} && pending == Some(id)
      ensures !applied ==> apps == old(apps) && issued == old(issued) && pending == old(pending)
      ensures ok ==> applied
    {
      id := FreshId(issued);
      var happens: bool := *;
      applied := happens;
      if happens {
        apps, issued := apps[id := callbacks], issued + {id};
        pending := Some(id);
        ok := Answered();
      } else {
        ok, failures := false, failures + 1;
      }
    }

    method UpdateCallbacks(id: R.Id, callbacks: seq<string>) returns (ok: bool, ghost applied: bool)
      modifies this`apps, this`failures
      ensures failures == old(failures) + if ok then 0 else 1
      ensures apps == if applied then old(apps)[id := callbacks] else old(apps)
      ensures applied ==> id in old(apps)
      ensures ok ==> applied
    {
      var happens: bool := *;
      if happens && id in apps {
        apps, applied := apps[id := callbacks], true;
        ok := Answered();
      } else {
        ok, applied, failures := false, false, failures + 1;
      }
    }

    method DescribeClient(id: R.Id) returns (ok: bool, found: bool)
      modifies this`failures
      ensures failures == old(failures) + if ok then 0 else 1
      ensures ok ==> found == (id in apps)
    {
      ok := Answered();
      found := id in apps;
    }

    /** Removing a client that is already gone succeeds. */
    method DeleteClient(id: R.Id) returns (ok: bool, ghost applied: bool)
      modifies this`apps, this`failures
      ensures failures == old(failures) + if ok then 0 else 1
      ensures apps == if applied then old(apps) - {id} else old(apps)
      ensures ok ==> applied
    {
      var happens: bool := *;
      applied := happens;
      if happens {
        apps := apps - {id};
        ok := Answered();
      } else {
        ok, failures := false, failures + 1;
      }
    }

    /** Managed Login branding: described, and created if it is missing. */
    method EnsureBranding(id: R.Id) returns (ok: bool)
      modifies this`failures, this`branded
      ensures failures == old(failures) + if ok then 0 else 1
      ensures branded in {old(branded), old(branded) + {id}} && (ok ==> id in branded)
    {
      ok := Answered();
      if !ok { return; }
      var happens: bool := *;
      if id !in branded && !happens {
        ok, failures := false, failures + 1;
        return;
      }
      if id !in branded {
        branded := branded + {id};
        ok := Answered();
      }
    }

    /** Deleting it again; branding that is already gone is no error. */
    method DeleteBranding(id: R.Id) returns (ok: bool)
      modifies this`failures, this`branded
      ensures failures == old(failures) + if ok then 0 else 1
      ensures branded in {old(branded), old(branded) - {id}} && (ok ==> id !in branded)
    {
      var happens: bool := *;
      if !happens {
        ok, failures := false, failures + 1;
        return;
      }
      branded := branded - {id};
      ok := Answered();
    }
  }
}
