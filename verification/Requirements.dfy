/** Scheduling requirements of a NodeClaim or NodePool, and the labels they are about. */
module Requirements {

  datatype Operator = In | NotIn | Exists | DoesNotExist | OtherOperator

  datatype Requirement = Requirement(key: string, operator: Operator, values: seq<string>)

  const LABEL_ZONE := "topology.kubernetes.io/zone"
  const LABEL_CAPACITY_TYPE := "karpenter.sh/capacity-type"
  const SPOT := "spot"
  const ON_DEMAND := "on-demand"

  predicate IsIn(r: Requirement, key: string) {
    r.key == key && r.operator == In
  }
}
