/** The scene catalog: three named scenes, each with an action count and a
    list of action descriptions. The catalog is static, it is drawn in two
    places (dashboard cards and the scenes screen), and activating a scene
    only acknowledges the click: no device is changed. */
module Scenes {

  datatype Scene = Scene(name: string, actions: int, devices: seq<string>)

  /** The catalog held by the application. */
  const Catalog: seq<Scene> := [
    Scene("Movie Night", 2, ["light1: off", "thermostat: set (21)"]),
    Scene("Good Morning", 3, ["light1: on", "light2: on", "thermostat: set (23)"]),
    Scene("Away Mode", 4, ["light1: off", "light2: off", "door1: lock", "thermostat: set (18)"])
  ]

  /** The dashboard's scene cards: a name and a device count. */
  const DashboardSceneCards: seq<(string, int)> := [("Movie Night", 2), ("Good Morning", 3), ("Away Mode", 4)]

  /** The scenes screen's cards: name, action count and action lines. */
  const SceneDetailCards: seq<Scene> := [
    Scene("Movie Night", 2, ["light1: off", "thermostat: set (21)"]),
    Scene("Good Morning", 3, ["light1: on", "light2: on", "thermostat: set (23)"]),
    Scene("Away Mode", 4, ["light1: off", "light2: off", "door1: lock", "thermostat: set (18)"])
  ]

  /** A scene's advertised action count is the number of its action lines. */
  predicate CountMatches(s: Scene) {
    s.actions == |s.devices|
  }

  /** Scene names are unique in the catalog, every scene's count matches its
      action list, and the two places that draw scenes agree with the
      catalog entry for entry. */
  lemma CatalogConsistent()
    ensures forall k :: 0 <= k < |Catalog| ==> CountMatches(Catalog[k])
    ensures forall a, b :: 0 <= a < b < |Catalog| ==> Catalog[a].name != Catalog[b].name
    ensures |DashboardSceneCards| == |Catalog| == |SceneDetailCards|
    ensures forall k :: 0 <= k < |Catalog| ==>
      DashboardSceneCards[k] == (Catalog[k].name, Catalog[k].actions) && SceneDetailCards[k] == Catalog[k]
  {
  }
}
