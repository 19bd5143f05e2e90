/**
 * The compute-instance fetcher and the three power actions. Servers are
 * listed zone by zone; each action is one POST on the server's action path
 * whose body names the action.
 */
module InstancesApi {
  import opened Types
  import opened Transport
  import JsArray
  import JsString

  /** The zones instances are listed in, in request order. */
  const ZONES: seq<string> :=
    ["fr-par-1", "fr-par-2", "fr-par-3"] + ["nl-ams-1", "nl-ams-2"] + ["pl-waw-1", "pl-waw-2"]

  /** The servers of one zone: the zone sits between a fixed prefix and suffix. */
  function ServersPath(zone: string): (r: string)
    ensures |r| == |zone| + 27 && r[19..|r| - 8] == zone
    ensures r[..19] == "/instance/v1/zones/" && r[|r| - 8..] == "/servers"
  {
    "/instance/v1/zones/" + zone + "/servers"
  }

  /** `InstancesAPI.getAllInstances`. */
  function GetAllInstances(get: string -> Response<Instance>): (r: Fetched<Instance>)
    ensures r.requests == [Get(ServersPath("fr-par-1")), Get(ServersPath("fr-par-2")),
                           Get(ServersPath("fr-par-3")), Get(ServersPath("nl-ams-1")),
                           Get(ServersPath("nl-ams-2")), Get(ServersPath("pl-waw-1")),
                           Get(ServersPath("pl-waw-2"))]
    ensures r.result.Success? <==> forall zone :: zone in ZONES ==> get(ServersPath(zone)).Ok?
    ensures r.result.Success? ==>
              && r.result.value == JsArray.Flatten(RegionItems(ZONES, ServersPath, get))
              && |r.result.value| == JsArray.SumLengths(RegionItems(ZONES, ServersPath, get))
  {
    assert FanOut(ZONES, ServersPath, get).result.Success? ==>
             FanOut(ZONES, ServersPath, get).result.value == JsArray.Flatten(RegionItems(ZONES, ServersPath, get)) by {
      if FanOut(ZONES, ServersPath, get).result.Success? {
        FanOutFlattens(ZONES, ServersPath, get);
      }
    }
    FanOut(ZONES, ServersPath, get)
  }

  /** The path every power action is posted to. */
  function ActionPath(zone: string, id: string): (r: string)
    ensures |r| == |zone| + |id| + 35 && r[19..|r| - 7] == zone + "/servers/" + id
    ensures r[..19] == "/instance/v1/zones/" && r[|r| - 7..] == "/action"
  {
    "/instance/v1/zones/" + zone + "/servers/" + id + "/action"
  }

  /** `InstancesAPI.powerOnInstance`. */
  function PowerOnInstance(instance: Instance): (r: Request)
    ensures r.Post? && r.path == ActionPath(instance.zone, instance.id)
    ensures r.body == ActionBody("poweron")
  {
    Post(ActionPath(instance.zone, instance.id), ActionBody("poweron"))
  }

  /** `InstancesAPI.powerOffInstance`. */
  function PowerOffInstance(instance: Instance): (r: Request)
    ensures r.Post? && r.path == ActionPath(instance.zone, instance.id)
    ensures r.body == ActionBody("poweroff")
  {
    Post(ActionPath(instance.zone, instance.id), ActionBody("poweroff"))
  }

  /** `InstancesAPI.rebootInstance`. */
  function RebootInstance(instance: Instance): (r: Request)
    ensures r.Post? && r.path == ActionPath(instance.zone, instance.id)
    ensures r.body == ActionBody("reboot")
  {
    Post(ActionPath(instance.zone, instance.id), ActionBody("reboot"))
  }

  /** The three actions go to the same path and differ only in the action they name. */
  lemma PowerActionsDifferOnlyInAction(instance: Instance)
    ensures PowerOnInstance(instance).path == PowerOffInstance(instance).path == RebootInstance(instance).path
    ensures PowerOnInstance(instance) != PowerOffInstance(instance)
    ensures PowerOffInstance(instance) != RebootInstance(instance)
    ensures PowerOnInstance(instance) != RebootInstance(instance)
  {
  }

  /** An action path names one server: a slash-free zone and the id are read back from it. */
  lemma ActionPathInjective(zone1: string, id1: string, zone2: string, id2: string)
    requires '/' !in zone1 && '/' !in zone2
    requires ActionPath(zone1, id1) == ActionPath(zone2, id2)
    ensures zone1 == zone2 && id1 == id2
  {
    var m1, m2 := zone1 + "/servers/" + id1, zone2 + "/servers/" + id2;
    assert m1 == m2;
    assert m1 == zone1 + "/" + ("servers/" + id1);
    assert m2 == zone2 + "/" + ("servers/" + id2);
    JsString.SlashSplit(zone1, "servers/" + id1, zone2, "servers/" + id2);
    JsString.PrefixCancel("servers/", id1, id2);
  }

  /** The fetcher sends one request per zone and never the same request twice. */
  lemma RequestsDistinct(get: string -> Response<Instance>)
    ensures var rs := GetAllInstances(get).requests;
            forall i, j :: 0 <= i < j < |rs| ==> rs[i] != rs[j]
  {
    forall x, y | ServersPath(x) == ServersPath(y)
      ensures x == y
    {
      JsString.AffixCancel("/instance/v1/zones/", x, y, "/servers");
    }
    FanOutOneRequestPerRegion(ZONES, ServersPath, get);
  }
}
