/** Where a pod or workload manifest keeps its pod spec, and which ServiceAccount it names. */
module PodSpecs {
  import opened Models
  import opened Values

  function PodSpec(doc: Doc, kind: Kind): Option<Doc> {
    match SubMap(doc, "spec")
    case None => None
    case Some(spec) => if kind == Pod then Some(spec) else TemplateSpec(spec, kind)
  }

  function TemplateSpec(spec: Doc, kind: Kind): Option<Doc> {
    var holder := if kind == CronJob then SubMap(MapField(spec, "jobTemplate"), "spec") else Some(spec);
    match holder
    case None => None
    case Some(h) =>
      match SubMap(h, "template")
      case None => None
      case Some(template) => SubMap(template, "spec")
  }

  function ServiceAccountName(doc: Doc, kind: Kind): string {
    match PodSpec(doc, kind)
    case None => "default"
    case Some(spec) =>
      if StringField(spec, "serviceAccountName") != "" then StringField(spec, "serviceAccountName")
      else if StringField(spec, "serviceAccount") != "" then StringField(spec, "serviceAccount")
      else "default"
  }
}
