// What both reconcilers know of Kubernetes objects.
module Kube {
  import opened Common
  import opened Model

  // What a read of an object finds.
  datatype Lookup<+T> = Found(value: T) | Missing | Broken(error: Error)

  // The part of a v1.Service that is read or written. A derived service is labelled with its import's name and
  // its source cluster.
  datatype KubeService = KubeService(labels: Option<(string, string)>, ports: seq<Port>, clusterIP: string)
}
