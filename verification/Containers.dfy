/** The containers of a daemonset's pod template, as far as talisman reads them. */
module Containers {
  const PX_CONTAINER := "portworx"

  datatype Source = NoSource | SecretKey(name: string, key: string) | OtherSource

  datatype EnvVar = EnvVar(name: string, value: string, source: Source)

  /** `other` stands for every field that is never read or written. */
  datatype Container = Container(name: string, image: string, args: seq<string>, env: seq<EnvVar>, other: string)

  type Template = seq<Container>

  /** Index of the first `portworx` container; `|t|` when there is none. */
  function FirstPx(t: Template): (i: nat)
    ensures i <= |t|
    ensures i < |t| ==> t[i].name == PX_CONTAINER
    ensures forall j :: 0 <= j < i ==> t[j].name != PX_CONTAINER
  {
    if t == [] then 0 else if t[0].name == PX_CONTAINER then 0 else 1 + FirstPx(t[1..])
  }

  predicate HasPx(t: Template) { FirstPx(t) < |t| }

  function PxContainer(t: Template): Container
    requires HasPx(t)
  {
    t[FirstPx(t)]
  }
}
