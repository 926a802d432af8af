/** The admission webhook for FileSystemClaims. */
module Webhook {
  import opened Conditions
  import opened Cluster

  // ValidateUpdate: may the devices of the old claim be replaced by these?
  predicate AllowsUpdate(old_: Claim, devices: seq<string>) {
    if old_.devices == devices then true
    else
      var c := Find(old_.conditions, LocalDiskCreated);
      c.None? || c.value.status != True
  }

  // With one condition per type, the webhook blocks exactly the edits of the devices of a
  // claim whose LocalDiskCreated is True as the controller itself sees it.
  lemma BlocksExactly(c: Claim, devices: seq<string>)
    requires Unique(c.conditions)
    ensures !AllowsUpdate(c, devices) <==> devices != c.devices && IsTrue(c.conditions, LocalDiskCreated)
  {
    TrueIsFirst(c.conditions, LocalDiskCreated);
  }
}
