/**
 * x/unifi/bootstrap.go: fetching the device inventory, picking out the managed
 * doorbells in order, and deciding whether a doorbell rang since the previous poll.
 */
module UnifiBootstrap {
  import opened Options
  import opened Errors
  import opened UnifiClient

  /** The fields of a camera record that the program reads. */
  datatype Camera = Camera(kind: string, name: string, id: string, isManaged: bool, lastRing: nat, mac: string)

  /** unifi.Doorbell is a Camera under another name. */
  type Doorbell = Camera

  datatype Bootstrap = Bootstrap(cameras: seq<Camera>)

  const DoorbellType := "UVC G4 Doorbell"

  predicate IsDoorbell(c: Camera) {
    c.kind == DoorbellType
  }

  /** The condition GetDoorbells keeps a camera under. */
  predicate Selected(c: Camera) {
    c.isManaged && IsDoorbell(c)
  }

  /** The cameras GetDoorbells keeps, in the order the inventory lists them. */
  function ManagedDoorbells(cs: seq<Camera>): (ds: seq<Doorbell>)
    ensures |ds| <= |cs|
    decreases |cs|
  {
    if cs == [] then []
    else ManagedDoorbells(cs[..|cs| - 1]) + (if Selected(cs[|cs| - 1]) then [cs[|cs| - 1]] else [])
  }

  /** A camera is among the doorbells exactly when it is in the inventory, managed and of the doorbell type. */
  lemma {:induction false} ManagedDoorbellsMembership(cs: seq<Camera>, c: Camera)
    ensures c in ManagedDoorbells(cs) <==> c in cs && c.isManaged && c.kind == "UVC G4 Doorbell"
    decreases |cs|
  {
    if cs != [] {
      var init, last := cs[..|cs| - 1], cs[|cs| - 1];
      assert cs == init + [last];
      ManagedDoorbellsMembership(init, c);
    }
  }

  /** Selection keeps order: the doorbells of a concatenation are the doorbells of each part, concatenated. */
  lemma {:induction false} ManagedDoorbellsConcat(a: seq<Camera>, b: seq<Camera>)
    ensures ManagedDoorbells(a + b) == ManagedDoorbells(a) + ManagedDoorbells(b)
    decreases |b|
  {
    if b == [] {
      assert a + b == a;
    } else {
      var init, last := b[..|b| - 1], b[|b| - 1];
      assert (a + b)[..|a + b| - 1] == a + init;
      assert (a + b)[|a + b| - 1] == last;
      ManagedDoorbellsConcat(a, init);
    }
  }

  /** GetBootstrap: a GET of /api/bootstrap with no body, decoded into the inventory; errors are wrapped. */
  function GetBootstrap(c: Client, decode: seq<Net.byte> -> Result<Bootstrap>, transport: Transport, cancelledFirst: bool)
    : (r: Result<Bootstrap>)
    reads c
    ensures var res := c.JsonRequest("GET", Endpoint(c.config, "/api/bootstrap"), None, Some(decode), transport, cancelledFirst);
      && (res.Err? ==> r == Err(Wrapped("failed to get bootstrap", res.error)))
      && (res.Ok? ==> r.Ok? && res.value == Some(r.value))
  {
    var res := c.JsonRequest("GET", Endpoint(c.config, "/api/bootstrap"), None, Some(decode), transport, cancelledFirst);
    if res.Err? then Err(Wrapped("failed to get bootstrap", res.error)) else Ok(res.value.value)
  }

  /**
   * GetDoorbells: on a failed fetch no doorbells and a wrapped error; otherwise exactly
   * the managed doorbells of the inventory, in order.
   */
  method GetDoorbells(c: Client, decode: seq<Net.byte> -> Result<Bootstrap>, transport: Transport, cancelledFirst: bool)
    returns (ds: seq<Doorbell>, err: Option<Error>)
    ensures var b := GetBootstrap(c, decode, transport, cancelledFirst);
      && (b.Err? ==> ds == [] && err == Some(Wrapped("failed to get doorbells", b.error)))
      && (b.Ok? ==> err == None && ds == ManagedDoorbells(b.value.cameras))
  {
    var b := GetBootstrap(c, decode, transport, cancelledFirst);
    if b.Err? {
      return [], Some(Wrapped("failed to get doorbells", b.error));
    }
    var cameras := b.value.cameras;
    ds := [];
    for i := 0 to |cameras|
      invariant ds == ManagedDoorbells(cameras[..i])
    {
      assert cameras[..i + 1][..i] == cameras[..i];
      if cameras[i].isManaged && IsDoorbell(cameras[i]) {
        ds := ds + [cameras[i]];
      }
    }
    assert cameras[..|cameras|] == cameras;
    err := None;
  }

  /** DoesRung: compare with the first old entry of the same name only; no such entry means no ring. */
  function DoesRung(d: Doorbell, oldStates: seq<Doorbell>): bool
    decreases |oldStates|
  {
    if oldStates == [] then false
    else if d.name == oldStates[0].name then d.lastRing > oldStates[0].lastRing
    else DoesRung(d, oldStates[1..])
  }

  /** The index of the first old entry named like d, or |oldStates| when there is none. */
  function FirstNamed(name: string, oldStates: seq<Doorbell>): (k: nat)
    ensures k <= |oldStates|
    ensures forall j :: 0 <= j < k ==> oldStates[j].name != name
    ensures k < |oldStates| ==> oldStates[k].name == name
    decreases |oldStates|
  {
    if oldStates == [] || oldStates[0].name == name then 0 else 1 + FirstNamed(name, oldStates[1..])
  }

  /**
   * A doorbell rang iff some old entry has its name and the first such entry has a
   * strictly smaller LastRing: a newcomer never rings and equal values never ring.
   */
  lemma {:induction false} DoesRungIffFirstMatchSmaller(d: Doorbell, oldStates: seq<Doorbell>)
    ensures var k := FirstNamed(d.name, oldStates);
      DoesRung(d, oldStates) <==> k < |oldStates| && oldStates[k].lastRing < d.lastRing
    decreases |oldStates|
  {
    if oldStates != [] && oldStates[0].name != d.name {
      DoesRungIffFirstMatchSmaller(d, oldStates[1..]);
    }
  }

  /** A doorbell whose name is not among the old entries never rings. */
  lemma NewcomerNeverRings(d: Doorbell, oldStates: seq<Doorbell>)
    requires forall j :: 0 <= j < |oldStates| ==> oldStates[j].name != d.name
    ensures !DoesRung(d, oldStates)
  {
    DoesRungIffFirstMatchSmaller(d, oldStates);
  }

  /** Once an entry of the same name has been seen, later entries are ignored. */
  lemma {:induction false} LaterDuplicatesIgnored(d: Doorbell, first: seq<Doorbell>, rest: seq<Doorbell>)
    requires exists j :: 0 <= j < |first| && first[j].name == d.name
    ensures DoesRung(d, first + rest) == DoesRung(d, first)
    decreases |first|
  {
    assert (first + rest)[0] == first[0];
    if first[0].name != d.name {
      assert (first + rest)[1..] == first[1..] + rest;
      var j :| 0 <= j < |first| && first[j].name == d.name;
      assert first[1..][j - 1].name == d.name;
      LaterDuplicatesIgnored(d, first[1..], rest);
    }
  }
}
