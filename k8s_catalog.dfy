/** The version catalog of apis/management.cattle.io/v3/k8s_defaults.go: the image
    bundle record, the full catalog of Kubernetes builds, the list of currently
    recommended builds and the default build. The image references are written
    as they appear in the source. Each one passes through image.Mirror there,
    whose body is not part of this model; writing them unchanged assumes that
    Mirror returns each reference as it is. */
module K8sCatalog {

  /** The set of container images one Kubernetes build is deployed with.
      A component an entry does not list (MetricsServer, which only the three
      current builds list) is the empty string, the zero value of the source's
      record. */
  datatype RKESystemImages = RKESystemImages(
    etcd: string,
    kubernetes: string,
    alpine: string,
    nginxProxy: string,
    certDownloader: string,
    kubernetesServicesSidecar: string,
    kubeDNS: string,
    dnsmasq: string,
    kubeDNSSidecar: string,
    kubeDNSAutoscaler: string,
    flannel: string,
    flannelCNI: string,
    calicoNode: string,
    calicoCNI: string,
    calicoCtl: string,
    canalNode: string,
    canalCNI: string,
    canalFlannel: string,
    weaveNode: string,
    weaveCNI: string,
    podInfraContainer: string,
    ingress: string,
    ingressBackend: string,
    metricsServer: string := "")

  /** The default Kubernetes build. */
  const DefaultK8s: string := "v1.11.1-rancher1-1"

  /** The builds currently offered for installation, in the source's order. */
  const K8sVersionsCurrent: seq<string> := [
    "v1.9.7-rancher2-2",
    "v1.10.5-rancher1-2",
    "v1.11.1-rancher1-1"
  ]

  /** Builds known to be defective (a table local to the startup routine,
      k8s_defaults.go:429-434). Only the image-tag check consults it. */
  const BadVersions: map<string, bool> := map[
    "v1.9.7-rancher1" := true,
    "v1.10.1-rancher1" := true,
    "v1.8.11-rancher1" := true,
    "v1.8.10-rancher1-1" := true
  ]

  /** The full historical catalog: Kubernetes build to image bundle. */
  const AllK8sVersions: map<string, RKESystemImages> := map[
    // k8s_defaults.go:72
    "v1.8.10-rancher1-1" := RKESystemImages(
      etcd := "quay.io/coreos/etcd:v3.0.17",
      kubernetes := "rancher/hyperkube:v1.8.10-rancher2",
      alpine := "rancher/rke-tools:v0.1.4",
      nginxProxy := "rancher/rke-tools:v0.1.4",
      certDownloader := "rancher/rke-tools:v0.1.4",
      kubernetesServicesSidecar := "rancher/rke-tools:v0.1.4",
      kubeDNS := "gcr.io/google_containers/k8s-dns-kube-dns-amd64:1.14.5",
      dnsmasq := "gcr.io/google_containers/k8s-dns-dnsmasq-nanny-amd64:1.14.5",
      kubeDNSSidecar := "gcr.io/google_containers/k8s-dns-sidecar-amd64:1.14.5",
      kubeDNSAutoscaler := "gcr.io/google_containers/cluster-proportional-autoscaler-amd64:1.0.0",
      flannel := "quay.io/coreos/flannel:v0.9.1",
      flannelCNI := "quay.io/coreos/flannel-cni:v0.2.0",
      calicoNode := "quay.io/calico/node:v3.1.1",
      calicoCNI := "quay.io/calico/cni:v3.1.1",
      calicoCtl := "quay.io/calico/ctl:v2.0.0",
      canalNode := "quay.io/calico/node:v3.1.1",
      canalCNI := "quay.io/calico/cni:v3.1.1",
      canalFlannel := "quay.io/coreos/flannel:v0.9.1",
      weaveNode := "weaveworks/weave-kube:2.1.2",
      weaveCNI := "weaveworks/weave-npc:2.1.2",
      podInfraContainer := "gcr.io/google_containers/pause-amd64:3.0",
      ingress := "rancher/nginx-ingress-controller:0.10.2-rancher3",
      ingressBackend := "k8s.gcr.io/defaultbackend:1.4"),
    // k8s_defaults.go:97
    "v1.8.11-rancher1" := RKESystemImages(
      etcd := "quay.io/coreos/etcd:v3.0.17",
      kubernetes := "rancher/hyperkube:v1.8.11-rancher2",
      alpine := "rancher/rke-tools:v0.1.4",
      nginxProxy := "rancher/rke-tools:v0.1.4",
      certDownloader := "rancher/rke-tools:v0.1.4",
      kubernetesServicesSidecar := "rancher/rke-tools:v0.1.4",
      kubeDNS := "gcr.io/google_containers/k8s-dns-kube-dns-amd64:1.14.5",
      dnsmasq := "gcr.io/google_containers/k8s-dns-dnsmasq-nanny-amd64:1.14.5",
      kubeDNSSidecar := "gcr.io/google_containers/k8s-dns-sidecar-amd64:1.14.5",
      kubeDNSAutoscaler := "gcr.io/google_containers/cluster-proportional-autoscaler-amd64:1.0.0",
      flannel := "quay.io/coreos/flannel:v0.9.1",
      flannelCNI := "quay.io/coreos/flannel-cni:v0.2.0",
      calicoNode := "quay.io/calico/node:v3.1.1",
      calicoCNI := "quay.io/calico/cni:v3.1.1",
      calicoCtl := "quay.io/calico/ctl:v2.0.0",
      canalNode := "quay.io/calico/node:v3.1.1",
      canalCNI := "quay.io/calico/cni:v3.1.1",
      canalFlannel := "quay.io/coreos/flannel:v0.9.1",
      weaveNode := "weaveworks/weave-kube:2.1.2",
      weaveCNI := "weaveworks/weave-npc:2.1.2",
      podInfraContainer := "gcr.io/google_containers/pause-amd64:3.0",
      ingress := "rancher/nginx-ingress-controller:0.10.2-rancher3",
      ingressBackend := "k8s.gcr.io/defaultbackend:1.4"),
    // k8s_defaults.go:122
    "v1.8.11-rancher2-1" := RKESystemImages(
      etcd := "quay.io/coreos/etcd:v3.0.17",
      kubernetes := "rancher/hyperkube:v1.8.11-rancher2",
      alpine := "rancher/rke-tools:v0.1.8",
      nginxProxy := "rancher/rke-tools:v0.1.8",
      certDownloader := "rancher/rke-tools:v0.1.8",
      kubernetesServicesSidecar := "rancher/rke-tools:v0.1.8",
      kubeDNS := "gcr.io/google_containers/k8s-dns-kube-dns-amd64:1.14.5",
      dnsmasq := "gcr.io/google_containers/k8s-dns-dnsmasq-nanny-amd64:1.14.5",
      kubeDNSSidecar := "gcr.io/google_containers/k8s-dns-sidecar-amd64:1.14.5",
      kubeDNSAutoscaler := "gcr.io/google_containers/cluster-proportional-autoscaler-amd64:1.0.0",
      flannel := "quay.io/coreos/flannel:v0.9.1",
      flannelCNI := "quay.io/coreos/flannel-cni:v0.2.0",
      calicoNode := "quay.io/calico/node:v3.1.1",
      calicoCNI := "quay.io/calico/cni:v3.1.1",
      calicoCtl := "quay.io/calico/ctl:v2.0.0",
      canalNode := "quay.io/calico/node:v3.1.1",
      canalCNI := "quay.io/calico/cni:v3.1.1",
      canalFlannel := "quay.io/coreos/flannel:v0.9.1",
      weaveNode := "weaveworks/weave-kube:2.1.2",
      weaveCNI := "weaveworks/weave-npc:2.1.2",
      podInfraContainer := "gcr.io/google_containers/pause-amd64:3.0",
      ingress := "rancher/nginx-ingress-controller:0.10.2-rancher3",
      ingressBackend := "k8s.gcr.io/defaultbackend:1.4"),
    // k8s_defaults.go:147
    "v1.9.5-rancher1-1" := RKESystemImages(
      etcd := "quay.io/coreos/etcd:v3.1.12",
      kubernetes := "rancher/hyperkube:v1.9.5-rancher1",
      alpine := "rancher/rke-tools:v0.1.4",
      nginxProxy := "rancher/rke-tools:v0.1.4",
      certDownloader := "rancher/rke-tools:v0.1.4",
      kubernetesServicesSidecar := "rancher/rke-tools:v0.1.4",
      kubeDNS := "gcr.io/google_containers/k8s-dns-kube-dns-amd64:1.14.7",
      dnsmasq := "gcr.io/google_containers/k8s-dns-dnsmasq-nanny-amd64:1.14.7",
      kubeDNSSidecar := "gcr.io/google_containers/k8s-dns-sidecar-amd64:1.14.7",
      kubeDNSAutoscaler := "gcr.io/google_containers/cluster-proportional-autoscaler-amd64:1.0.0",
      flannel := "quay.io/coreos/flannel:v0.9.1",
      flannelCNI := "quay.io/coreos/flannel-cni:v0.2.0",
      calicoNode := "quay.io/calico/node:v3.1.1",
      calicoCNI := "quay.io/calico/cni:v3.1.1",
      calicoCtl := "quay.io/calico/ctl:v2.0.0",
      canalNode := "quay.io/calico/node:v3.1.1",
      canalCNI := "quay.io/calico/cni:v3.1.1",
      canalFlannel := "quay.io/coreos/flannel:v0.9.1",
      weaveNode := "weaveworks/weave-kube:2.1.2",
      weaveCNI := "weaveworks/weave-npc:2.1.2",
      podInfraContainer := "gcr.io/google_containers/pause-amd64:3.0",
      ingress := "rancher/nginx-ingress-controller:0.10.2-rancher3",
      ingressBackend := "k8s.gcr.io/defaultbackend:1.4"),
    // k8s_defaults.go:172
    "v1.9.7-rancher1" := RKESystemImages(
      etcd := "quay.io/coreos/etcd:v3.1.12",
      kubernetes := "rancher/hyperkube:v1.9.7-rancher2",
      alpine := "rancher/rke-tools:v0.1.4",
      nginxProxy := "rancher/rke-tools:v0.1.4",
      certDownloader := "rancher/rke-tools:v0.1.4",
      kubernetesServicesSidecar := "rancher/rke-tools:v0.1.4",
      kubeDNS := "gcr.io/google_containers/k8s-dns-kube-dns-amd64:1.14.7",
      dnsmasq := "gcr.io/google_containers/k8s-dns-dnsmasq-nanny-amd64:1.14.7",
      kubeDNSSidecar := "gcr.io/google_containers/k8s-dns-sidecar-amd64:1.14.7",
      kubeDNSAutoscaler := "gcr.io/google_containers/cluster-proportional-autoscaler-amd64:1.0.0",
      flannel := "quay.io/coreos/flannel:v0.9.1",
      flannelCNI := "quay.io/coreos/flannel-cni:v0.2.0",
      calicoNode := "quay.io/calico/node:v3.1.1",
      calicoCNI := "quay.io/calico/cni:v3.1.1",
      calicoCtl := "quay.io/calico/ctl:v2.0.0",
      canalNode := "quay.io/calico/node:v3.1.1",
      canalCNI := "quay.io/calico/cni:v3.1.1",
      canalFlannel := "quay.io/coreos/flannel:v0.9.1",
      weaveNode := "weaveworks/weave-kube:2.1.2",
      weaveCNI := "weaveworks/weave-npc:2.1.2",
      podInfraContainer := "gcr.io/google_containers/pause-amd64:3.0",
      ingress := "rancher/nginx-ingress-controller:0.10.2-rancher3",
      ingressBackend := "k8s.gcr.io/defaultbackend:1.4"),
    // k8s_defaults.go:197
    "v1.9.7-rancher2-1" := RKESystemImages(
      etcd := "quay.io/coreos/etcd:v3.1.12",
      kubernetes := "rancher/hyperkube:v1.9.7-rancher2",
      alpine := "rancher/rke-tools:v0.1.8",
      nginxProxy := "rancher/rke-tools:v0.1.8",
      certDownloader := "rancher/rke-tools:v0.1.8",
      kubernetesServicesSidecar := "rancher/rke-tools:v0.1.8",
      kubeDNS := "gcr.io/google_containers/k8s-dns-kube-dns-amd64:1.14.7",
      dnsmasq := "gcr.io/google_containers/k8s-dns-dnsmasq-nanny-amd64:1.14.7",
      kubeDNSSidecar := "gcr.io/google_containers/k8s-dns-sidecar-amd64:1.14.7",
      kubeDNSAutoscaler := "gcr.io/google_containers/cluster-proportional-autoscaler-amd64:1.0.0",
      flannel := "quay.io/coreos/flannel:v0.9.1",
      flannelCNI := "quay.io/coreos/flannel-cni:v0.2.0",
      calicoNode := "quay.io/calico/node:v3.1.1",
      calicoCNI := "quay.io/calico/cni:v3.1.1",
      calicoCtl := "quay.io/calico/ctl:v2.0.0",
      canalNode := "quay.io/calico/node:v3.1.1",
      canalCNI := "quay.io/calico/cni:v3.1.1",
      canalFlannel := "quay.io/coreos/flannel:v0.9.1",
      weaveNode := "weaveworks/weave-kube:2.1.2",
      weaveCNI := "weaveworks/weave-npc:2.1.2",
      podInfraContainer := "gcr.io/google_containers/pause-amd64:3.0",
      ingress := "rancher/nginx-ingress-controller:0.10.2-rancher3",
      ingressBackend := "k8s.gcr.io/defaultbackend:1.4"),
    // k8s_defaults.go:222
    "v1.9.7-rancher2-2" := RKESystemImages(
      etcd := "quay.io/coreos/etcd:v3.1.12",
      kubernetes := "rancher/hyperkube:v1.9.7-rancher2",
      alpine := "rancher/rke-tools:v0.1.13",
      nginxProxy := "rancher/rke-tools:v0.1.13",
      certDownloader := "rancher/rke-tools:v0.1.13",
      kubernetesServicesSidecar := "rancher/rke-tools:v0.1.13",
      kubeDNS := "gcr.io/google_containers/k8s-dns-kube-dns-amd64:1.14.7",
      dnsmasq := "gcr.io/google_containers/k8s-dns-dnsmasq-nanny-amd64:1.14.7",
      kubeDNSSidecar := "gcr.io/google_containers/k8s-dns-sidecar-amd64:1.14.7",
      kubeDNSAutoscaler := "gcr.io/google_containers/cluster-proportional-autoscaler-amd64:1.0.0",
      flannel := "quay.io/coreos/flannel:v0.9.1",
      flannelCNI := "quay.io/coreos/flannel-cni:v0.2.0",
      calicoNode := "quay.io/calico/node:v3.1.1",
      calicoCNI := "quay.io/calico/cni:v3.1.1",
      calicoCtl := "quay.io/calico/ctl:v2.0.0",
      canalNode := "quay.io/calico/node:v3.1.1",
      canalCNI := "quay.io/calico/cni:v3.1.1",
      canalFlannel := "quay.io/coreos/flannel:v0.9.1",
      weaveNode := "weaveworks/weave-kube:2.1.2",
      weaveCNI := "weaveworks/weave-npc:2.1.2",
      podInfraContainer := "gcr.io/google_containers/pause-amd64:3.0",
      ingress := "rancher/nginx-ingress-controller:0.16.2-rancher1",
      ingressBackend := "k8s.gcr.io/defaultbackend:1.4",
      metricsServer := "gcr.io/google_containers/metrics-server-amd64:v0.2.1"),
    // k8s_defaults.go:248
    "v1.10.0-rancher1-1" := RKESystemImages(
      etcd := "quay.io/coreos/etcd:v3.1.12",
      kubernetes := "rancher/hyperkube:v1.10.0-rancher1",
      alpine := "rancher/rke-tools:v0.1.4",
      nginxProxy := "rancher/rke-tools:v0.1.4",
      certDownloader := "rancher/rke-tools:v0.1.4",
      kubernetesServicesSidecar := "rancher/rke-tools:v0.1.4",
      kubeDNS := "gcr.io/google_containers/k8s-dns-kube-dns-amd64:1.14.8",
      dnsmasq := "gcr.io/google_containers/k8s-dns-dnsmasq-nanny-amd64:1.14.8",
      kubeDNSSidecar := "gcr.io/google_containers/k8s-dns-sidecar-amd64:1.14.8",
      kubeDNSAutoscaler := "gcr.io/google_containers/cluster-proportional-autoscaler-amd64:1.0.0",
      flannel := "quay.io/coreos/flannel:v0.9.1",
      flannelCNI := "quay.io/coreos/flannel-cni:v0.2.0",
      calicoNode := "quay.io/calico/node:v3.1.1",
      calicoCNI := "quay.io/calico/cni:v3.1.1",
      calicoCtl := "quay.io/calico/ctl:v2.0.0",
      canalNode := "quay.io/calico/node:v3.1.1",
      canalCNI := "quay.io/calico/cni:v3.1.1",
      canalFlannel := "quay.io/coreos/flannel:v0.9.1",
      weaveNode := "weaveworks/weave-kube:2.1.2",
      weaveCNI := "weaveworks/weave-npc:2.1.2",
      podInfraContainer := "gcr.io/google_containers/pause-amd64:3.1",
      ingress := "rancher/nginx-ingress-controller:0.10.2-rancher3",
      ingressBackend := "k8s.gcr.io/defaultbackend:1.4"),
    // k8s_defaults.go:273
    "v1.10.1-rancher1" := RKESystemImages(
      etcd := "quay.io/coreos/etcd:v3.1.12",
      kubernetes := "rancher/hyperkube:v1.10.1-rancher2",
      alpine := "rancher/rke-tools:v0.1.4",
      nginxProxy := "rancher/rke-tools:v0.1.4",
      certDownloader := "rancher/rke-tools:v0.1.4",
      kubernetesServicesSidecar := "rancher/rke-tools:v0.1.4",
      kubeDNS := "gcr.io/google_containers/k8s-dns-kube-dns-amd64:1.14.8",
      dnsmasq := "gcr.io/google_containers/k8s-dns-dnsmasq-nanny-amd64:1.14.8",
      kubeDNSSidecar := "gcr.io/google_containers/k8s-dns-sidecar-amd64:1.14.8",
      kubeDNSAutoscaler := "gcr.io/google_containers/cluster-proportional-autoscaler-amd64:1.0.0",
      flannel := "quay.io/coreos/flannel:v0.9.1",
      flannelCNI := "quay.io/coreos/flannel-cni:v0.2.0",
      calicoNode := "quay.io/calico/node:v3.1.1",
      calicoCNI := "quay.io/calico/cni:v3.1.1",
      calicoCtl := "quay.io/calico/ctl:v2.0.0",
      canalNode := "quay.io/calico/node:v3.1.1",
      canalCNI := "quay.io/calico/cni:v3.1.1",
      canalFlannel := "quay.io/coreos/flannel:v0.9.1",
      weaveNode := "weaveworks/weave-kube:2.1.2",
      weaveCNI := "weaveworks/weave-npc:2.1.2",
      podInfraContainer := "gcr.io/google_containers/pause-amd64:3.1",
      ingress := "rancher/nginx-ingress-controller:0.10.2-rancher3",
      ingressBackend := "k8s.gcr.io/defaultbackend:1.4"),
    // k8s_defaults.go:298
    "v1.10.1-rancher2-1" := RKESystemImages(
      etcd := "quay.io/coreos/etcd:v3.1.12",
      kubernetes := "rancher/hyperkube:v1.10.1-rancher2",
      alpine := "rancher/rke-tools:v0.1.8",
      nginxProxy := "rancher/rke-tools:v0.1.8",
      certDownloader := "rancher/rke-tools:v0.1.8",
      kubernetesServicesSidecar := "rancher/rke-tools:v0.1.8",
      kubeDNS := "gcr.io/google_containers/k8s-dns-kube-dns-amd64:1.14.8",
      dnsmasq := "gcr.io/google_containers/k8s-dns-dnsmasq-nanny-amd64:1.14.8",
      kubeDNSSidecar := "gcr.io/google_containers/k8s-dns-sidecar-amd64:1.14.8",
      kubeDNSAutoscaler := "gcr.io/google_containers/cluster-proportional-autoscaler-amd64:1.0.0",
      flannel := "quay.io/coreos/flannel:v0.9.1",
      flannelCNI := "quay.io/coreos/flannel-cni:v0.2.0",
      calicoNode := "quay.io/calico/node:v3.1.1",
      calicoCNI := "quay.io/calico/cni:v3.1.1",
      calicoCtl := "quay.io/calico/ctl:v2.0.0",
      canalNode := "quay.io/calico/node:v3.1.1",
      canalCNI := "quay.io/calico/cni:v3.1.1",
      canalFlannel := "quay.io/coreos/flannel:v0.9.1",
      weaveNode := "weaveworks/weave-kube:2.1.2",
      weaveCNI := "weaveworks/weave-npc:2.1.2",
      podInfraContainer := "gcr.io/google_containers/pause-amd64:3.1",
      ingress := "rancher/nginx-ingress-controller:0.10.2-rancher3",
      ingressBackend := "k8s.gcr.io/defaultbackend:1.4"),
    // k8s_defaults.go:323
    "v1.10.3-rancher2-1" := RKESystemImages(
      etcd := "quay.io/coreos/etcd:v3.1.12",
      kubernetes := "rancher/hyperkube:v1.10.3-rancher2",
      alpine := "rancher/rke-tools:v0.1.10",
      nginxProxy := "rancher/rke-tools:v0.1.10",
      certDownloader := "rancher/rke-tools:v0.1.10",
      kubernetesServicesSidecar := "rancher/rke-tools:v0.1.10",
      kubeDNS := "gcr.io/google_containers/k8s-dns-kube-dns-amd64:1.14.8",
      dnsmasq := "gcr.io/google_containers/k8s-dns-dnsmasq-nanny-amd64:1.14.8",
      kubeDNSSidecar := "gcr.io/google_containers/k8s-dns-sidecar-amd64:1.14.8",
      kubeDNSAutoscaler := "gcr.io/google_containers/cluster-proportional-autoscaler-amd64:1.0.0",
      flannel := "quay.io/coreos/flannel:v0.9.1",
      flannelCNI := "quay.io/coreos/flannel-cni:v0.2.0",
      calicoNode := "quay.io/calico/node:v3.1.1",
      calicoCNI := "quay.io/calico/cni:v3.1.1",
      calicoCtl := "quay.io/calico/ctl:v2.0.0",
      canalNode := "quay.io/calico/node:v3.1.1",
      canalCNI := "quay.io/calico/cni:v3.1.1",
      canalFlannel := "quay.io/coreos/flannel:v0.9.1",
      weaveNode := "weaveworks/weave-kube:2.1.2",
      weaveCNI := "weaveworks/weave-npc:2.1.2",
      podInfraContainer := "gcr.io/google_containers/pause-amd64:3.1",
      ingress := "rancher/nginx-ingress-controller:0.10.2-rancher3",
      ingressBackend := "k8s.gcr.io/defaultbackend:1.4"),
    // k8s_defaults.go:348
    "v1.10.5-rancher1-1" := RKESystemImages(
      etcd := "quay.io/coreos/etcd:v3.1.12",
      kubernetes := "rancher/hyperkube:v1.10.5-rancher1",
      alpine := "rancher/rke-tools:v0.1.10",
      nginxProxy := "rancher/rke-tools:v0.1.10",
      certDownloader := "rancher/rke-tools:v0.1.10",
      kubernetesServicesSidecar := "rancher/rke-tools:v0.1.10",
      kubeDNS := "gcr.io/google_containers/k8s-dns-kube-dns-amd64:1.14.8",
      dnsmasq := "gcr.io/google_containers/k8s-dns-dnsmasq-nanny-amd64:1.14.8",
      kubeDNSSidecar := "gcr.io/google_containers/k8s-dns-sidecar-amd64:1.14.8",
      kubeDNSAutoscaler := "gcr.io/google_containers/cluster-proportional-autoscaler-amd64:1.0.0",
      flannel := "quay.io/coreos/flannel:v0.9.1",
      flannelCNI := "quay.io/coreos/flannel-cni:v0.2.0",
      calicoNode := "quay.io/calico/node:v3.1.1",
      calicoCNI := "quay.io/calico/cni:v3.1.1",
      calicoCtl := "quay.io/calico/ctl:v2.0.0",
      canalNode := "quay.io/calico/node:v3.1.1",
      canalCNI := "quay.io/calico/cni:v3.1.1",
      canalFlannel := "quay.io/coreos/flannel:v0.9.1",
      weaveNode := "weaveworks/weave-kube:2.1.2",
      weaveCNI := "weaveworks/weave-npc:2.1.2",
      podInfraContainer := "gcr.io/google_containers/pause-amd64:3.1",
      ingress := "rancher/nginx-ingress-controller:0.10.2-rancher3",
      ingressBackend := "k8s.gcr.io/defaultbackend:1.4"),
    // k8s_defaults.go:373
    "v1.10.5-rancher1-2" := RKESystemImages(
      etcd := "quay.io/coreos/etcd:v3.1.12",
      kubernetes := "rancher/hyperkube:v1.10.5-rancher1",
      alpine := "rancher/rke-tools:v0.1.13",
      nginxProxy := "rancher/rke-tools:v0.1.13",
      certDownloader := "rancher/rke-tools:v0.1.13",
      kubernetesServicesSidecar := "rancher/rke-tools:v0.1.13",
      kubeDNS := "gcr.io/google_containers/k8s-dns-kube-dns-amd64:1.14.8",
      dnsmasq := "gcr.io/google_containers/k8s-dns-dnsmasq-nanny-amd64:1.14.8",
      kubeDNSSidecar := "gcr.io/google_containers/k8s-dns-sidecar-amd64:1.14.8",
      kubeDNSAutoscaler := "gcr.io/google_containers/cluster-proportional-autoscaler-amd64:1.0.0",
      flannel := "quay.io/coreos/flannel:v0.9.1",
      flannelCNI := "quay.io/coreos/flannel-cni:v0.2.0",
      calicoNode := "quay.io/calico/node:v3.1.1",
      calicoCNI := "quay.io/calico/cni:v3.1.1",
      calicoCtl := "quay.io/calico/ctl:v2.0.0",
      canalNode := "quay.io/calico/node:v3.1.1",
      canalCNI := "quay.io/calico/cni:v3.1.1",
      canalFlannel := "quay.io/coreos/flannel:v0.9.1",
      weaveNode := "weaveworks/weave-kube:2.1.2",
      weaveCNI := "weaveworks/weave-npc:2.1.2",
      podInfraContainer := "gcr.io/google_containers/pause-amd64:3.1",
      ingress := "rancher/nginx-ingress-controller:0.16.2-rancher1",
      ingressBackend := "k8s.gcr.io/defaultbackend:1.4",
      metricsServer := "gcr.io/google_containers/metrics-server-amd64:v0.2.1"),
    // k8s_defaults.go:399
    "v1.11.1-rancher1-1" := RKESystemImages(
      etcd := "quay.io/coreos/etcd:v3.2.18",
      kubernetes := "rancher/hyperkube:v1.11.1-rancher1",
      alpine := "rancher/rke-tools:v0.1.13",
      nginxProxy := "rancher/rke-tools:v0.1.13",
      certDownloader := "rancher/rke-tools:v0.1.13",
      kubernetesServicesSidecar := "rancher/rke-tools:v0.1.13",
      kubeDNS := "gcr.io/google_containers/k8s-dns-kube-dns-amd64:1.14.10",
      dnsmasq := "gcr.io/google_containers/k8s-dns-dnsmasq-nanny-amd64:1.14.10",
      kubeDNSSidecar := "gcr.io/google_containers/k8s-dns-sidecar-amd64:1.14.10",
      kubeDNSAutoscaler := "gcr.io/google_containers/cluster-proportional-autoscaler-amd64:1.0.0",
      flannel := "quay.io/coreos/flannel:v0.9.1",
      flannelCNI := "quay.io/coreos/flannel-cni:v0.2.0",
      calicoNode := "quay.io/calico/node:v3.1.1",
      calicoCNI := "quay.io/calico/cni:v3.1.1",
      calicoCtl := "quay.io/calico/ctl:v2.0.0",
      canalNode := "quay.io/calico/node:v3.1.1",
      canalCNI := "quay.io/calico/cni:v3.1.1",
      canalFlannel := "quay.io/coreos/flannel:v0.9.1",
      weaveNode := "weaveworks/weave-kube:2.1.2",
      weaveCNI := "weaveworks/weave-npc:2.1.2",
      podInfraContainer := "gcr.io/google_containers/pause-amd64:3.1",
      ingress := "rancher/nginx-ingress-controller:0.16.2-rancher1",
      ingressBackend := "k8s.gcr.io/defaultbackend:1.4",
      metricsServer := "gcr.io/google_containers/metrics-server-amd64:v0.2.1")
  ]
}
