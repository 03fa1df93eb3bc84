/** The namespace-defaulting rule and the build-namespace allow-list. */
module Executor {
  import opened Common

  /** An executor config, reduced to what RBAC and rendering derive from it. */
  datatype KubernetesConfig = KubernetesConfig(namespace: string, podDisruptionBudget: Option<bool>)

  function EffectiveNamespace(cfg: KubernetesConfig, fallback: string): string {
    if cfg.namespace != "" then cfg.namespace else fallback
  }

  predicate WantsPdb(cfg: KubernetesConfig) {
    cfg.podDisruptionBudget == Some(true)
  }

  predicate BuildNamespaceAllowed(ns: string, own: string, allowed: seq<string>) {
    ns == "" || ns == own || "*" in allowed || ns in allowed
  }
}
