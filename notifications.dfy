/** `NotificationService` (autodocai/notifications.py): e-mails about a
    finished or failed run through SendGrid. Nothing is sent unless the
    API key and both addresses are configured, and a failed send is
    reported as `false`, never raised. */
module Notifications {
  import opened Wrappers
  import opened Text
  import opened Schemas
  import opened Config
  import opened Collaborators

  /** The three settings the service keeps from the configuration. */
  datatype NotificationService = NotificationService(
    apiKey: Option<string>,
    fromEmail: Option<string>,
    toEmail: Option<string>)

  /** `NotificationService(config)` */
  function ServiceOf(cfg: Settings): NotificationService
  {
    NotificationService(cfg.sendgrid_api_key, cfg.sendgrid_from_email, cfg.notification_email_to)
  }

  /** `_can_send_notifications`: all three settings are truthy. */
  predicate CanSend(svc: NotificationService)
  {
    Truthy(svc.apiKey) && Truthy(svc.fromEmail) && Truthy(svc.toEmail)
  }

  /** The status SendGrid answers an accepted message with. */
  const Accepted := 202

  /** `_send_email`: true exactly when SendGrid accepted the message; an
      exception during the request counts as not sent. */
  function SendEmail(svc: NotificationService, env: Env, subject: string, html: string): bool
  {
    if !CanSend(svc) then false
    else
      match env.sendEmail(svc.apiKey.value, svc.fromEmail.value, svc.toEmail.value, subject, html)
      case Err(_) => false
      case Ok(status) => status == Accepted
  }

  /** `repo_url.split('/')[-1]` */
  function RepoSegment(repoUrl: string): (r: string)
    ensures '/' !in r
  {
    LastPartSlashFree(repoUrl);
    LastPart(repoUrl, "/")
  }

  function SuccessSubject(repoUrl: string): string
  {
    "AutoDoc AI: Documentation generated successfully for " + RepoSegment(repoUrl)
  }

  function ErrorSubject(repoUrl: string): string
  {
    "AutoDoc AI: Error processing " + RepoSegment(repoUrl)
  }

  /** `stats.get(k, 0)` */
  function StatOr(stats: map<string, int>, k: string): int
  {
    if k in stats then stats[k] else 0
  }

  function StatLine(caption: string, n: int): string
  {
    "            <li>" + caption + ": " + IntToString(n) + "</li>\n"
  }

  /** The HTML body of the success message. */
  function SuccessContent(repoUrl: string, docsPath: string, stats: map<string, int>): string
  {
    "\n        <h2>Documentation Generated Successfully</h2>\n"
    + RepositoryLine(repoUrl)
    + PathLine(docsPath)
    + "        \n        <h3>Statistics</h3>\n        <ul>\n"
    + StatsList(stats)
    + "        </ul>\n        "
  }

  function RepositoryLine(repoUrl: string): string
  {
    "        <p><strong>Repository:</strong> " + repoUrl + "</p>\n"
  }

  function PathLine(docsPath: string): string
  {
    "        <p><strong>Documentation Path:</strong> " + docsPath + "</p>\n"
  }

  function StatsList(stats: map<string, int>): string
  {
    StatLine("Files Processed", StatOr(stats, "files_processed"))
    + StatLine("Functions Documented", StatOr(stats, "functions_documented"))
    + StatLine("Classes Documented", StatOr(stats, "classes_documented"))
    + StatLine("Diagrams Generated", StatOr(stats, "diagrams_generated"))
  }

  /** `stage or 'Unknown'` */
  function StageShown(stage: Option<string>): (r: string)
    ensures r != ""
    ensures Truthy(stage) ==> r == stage.value
    ensures !Truthy(stage) ==> r == "Unknown"
  {
    if Truthy(stage) then stage.value else "Unknown"
  }

  /** The HTML body of the error message. */
  function ErrorContent(repoUrl: string, errorMessage: string, stage: Option<string>): string
  {
    "\n        <h2>Error Processing Repository</h2>\n"
    + RepositoryLine(repoUrl)
    + StageLine(stage)
    + "        \n        <h3>Error Details</h3>\n        "
    + Preformatted(errorMessage)
    + "\n        "
  }

  function StageLine(stage: Option<string>): string
  {
    "        <p><strong>Stage:</strong> " + StageShown(stage) + "</p>\n"
  }

  function Preformatted(text: string): string
  {
    "<pre>" + text + "</pre>"
  }

  /** `send_success_notification` */
  function SendSuccessNotification(svc: NotificationService, env: Env, repoUrl: string, docsPath: string,
                                   stats: map<string, int>): bool
  {
    if !CanSend(svc) then false
    else SendEmail(svc, env, SuccessSubject(repoUrl), SuccessContent(repoUrl, docsPath, stats))
  }

  /** `send_error_notification` */
  function SendErrorNotification(svc: NotificationService, env: Env, repoUrl: string, errorMessage: string,
                                 stage: Option<string>): bool
  {
    if !CanSend(svc) then false
    else SendEmail(svc, env, ErrorSubject(repoUrl), ErrorContent(repoUrl, errorMessage, stage))
  }

  /** Without all three settings neither notice is sent, whatever SendGrid
      would have answered. */
  lemma NotConfiguredNeverSends(svc: NotificationService, env: Env, repoUrl: string, docsPath: string,
                                stats: map<string, int>, errorMessage: string, stage: Option<string>)
    requires !CanSend(svc)
    ensures !SendSuccessNotification(svc, env, repoUrl, docsPath, stats)
    ensures !SendErrorNotification(svc, env, repoUrl, errorMessage, stage)
    ensures forall subject, html :: !SendEmail(svc, env, subject, html)
  {
  }

  /** A configured send reports true exactly when SendGrid answered 202:
      any other status, and any exception, give false. */
  lemma SendEmailResult(svc: NotificationService, env: Env, subject: string, html: string)
    requires CanSend(svc)
    ensures var reply := env.sendEmail(svc.apiKey.value, svc.fromEmail.value, svc.toEmail.value, subject, html);
      && (SendEmail(svc, env, subject, html) <==> reply == Ok(Accepted))
      && (reply.Err? ==> !SendEmail(svc, env, subject, html))
      && (reply.Ok? && reply.value != Accepted ==> !SendEmail(svc, env, subject, html))
  {
  }

  /** The configured success notice goes out with the subject naming the
      repository and the body the URL, the path and the four statistics. */
  lemma SuccessNotificationSent(svc: NotificationService, env: Env, repoUrl: string, docsPath: string,
                                stats: map<string, int>)
    requires CanSend(svc)
    ensures SendSuccessNotification(svc, env, repoUrl, docsPath, stats) <==>
      env.sendEmail(svc.apiKey.value, svc.fromEmail.value, svc.toEmail.value,
                    SuccessSubject(repoUrl), SuccessContent(repoUrl, docsPath, stats)) == Ok(Accepted)
  {
  }

  /** The subject names the last path segment of the repository URL: the
      repository itself for a URL ending in its name, nothing for a URL
      ending in "/". */
  lemma SubjectNamesRepository(prefix: string, name: string)
    requires '/' !in name
    ensures RepoSegment(prefix + "/" + name) == name
    ensures SuccessSubject(prefix + "/" + name) == "AutoDoc AI: Documentation generated successfully for " + name
    ensures ErrorSubject(prefix + "/" + name) == "AutoDoc AI: Error processing " + name
  {
    SplitLastOf(prefix, '/', name);
  }

  /** A statistic that is absent shows as 0; one that is there shows its value. */
  lemma StatsShown(stats: map<string, int>)
    ensures StatsList(stats) == StatsList(map k | k in Stats4 :: StatOr(stats, k))
    ensures StatsList(map[]) ==
      StatLine("Files Processed", 0) + StatLine("Functions Documented", 0)
      + StatLine("Classes Documented", 0) + StatLine("Diagrams Generated", 0)
  {
  }

  /** The four statistics the success notice lists. */
  const Stats4: set<string> := {"files_processed", "functions_documented", "classes_documented", "diagrams_generated"}

  lemma ContainsSelf(x: string)
    ensures Contains(x, x)
  {
    assert x[0..|x|] == x;
    assert OccursAt(x, x, 0);
    OccursAtContains(x, x, 0);
  }

  lemma ContainsLeft(a: string, b: string, x: string)
    requires Contains(a, x)
    ensures Contains(a + b, x)
  {
    assert (a + b)[0..|a|] == a;
    ContainsInfix(a + b, 0, |a|, x);
  }

  lemma ContainsRight(a: string, b: string, x: string)
    requires Contains(b, x)
    ensures Contains(a + b, x)
  {
    assert (a + b)[|a|..|a + b|] == b;
    ContainsInfix(a + b, |a|, |a + b|, x);
  }

  /** The error notice shows the repository, the failing stage ("Unknown"
      when none was given) and the error message. */
  lemma ErrorContentShows(repoUrl: string, errorMessage: string, stage: Option<string>)
    ensures Contains(ErrorContent(repoUrl, errorMessage, stage), RepositoryLine(repoUrl))
    ensures Contains(ErrorContent(repoUrl, errorMessage, stage), StageLine(stage))
    ensures Contains(ErrorContent(repoUrl, errorMessage, stage), Preformatted(errorMessage))
    ensures !Truthy(stage) ==> StageLine(stage) == StageLine(Some("Unknown"))
  {
    var h := "\n        <h2>Error Processing Repository</h2>\n";
    var r := RepositoryLine(repoUrl);
    var st := StageLine(stage);
    var d := "        \n        <h3>Error Details</h3>\n        ";
    var p := Preformatted(errorMessage);
    var t := "\n        ";
    ContainsSelf(r);
    ContainsRight(h, r, r);
    ContainsLeft(h + r, st, r);
    ContainsLeft(h + r + st, d, r);
    ContainsLeft(h + r + st + d, p, r);
    ContainsLeft(h + r + st + d + p, t, r);
    ContainsSelf(st);
    ContainsRight(h + r, st, st);
    ContainsLeft(h + r + st, d, st);
    ContainsLeft(h + r + st + d, p, st);
    ContainsLeft(h + r + st + d + p, t, st);
    ContainsSelf(p);
    ContainsRight(h + r + st + d, p, p);
    ContainsLeft(h + r + st + d + p, t, p);
  }

  /** The success notice shows the documentation path and each statistic,
      0 for one that is absent. */
  lemma SuccessContentShows(repoUrl: string, docsPath: string, stats: map<string, int>)
    ensures Contains(SuccessContent(repoUrl, docsPath, stats), PathLine(docsPath))
    ensures Contains(SuccessContent(repoUrl, docsPath, stats), StatsList(stats))
    ensures Contains(SuccessContent(repoUrl, docsPath, stats),
                     StatLine("Files Processed", StatOr(stats, "files_processed")))
    ensures "files_processed" !in stats ==>
      Contains(SuccessContent(repoUrl, docsPath, stats), StatLine("Files Processed", 0))
  {
    var h := "\n        <h2>Documentation Generated Successfully</h2>\n";
    var r := RepositoryLine(repoUrl);
    var pl := PathLine(docsPath);
    var u := "        \n        <h3>Statistics</h3>\n        <ul>\n";
    var l := StatsList(stats);
    var t := "        </ul>\n        ";
    ContainsSelf(pl);
    ContainsRight(h + r, pl, pl);
    ContainsLeft(h + r + pl, u, pl);
    ContainsLeft(h + r + pl + u, l, pl);
    ContainsLeft(h + r + pl + u + l, t, pl);
    ContainsSelf(l);
    ContainsRight(h + r + pl + u, l, l);
    ContainsLeft(h + r + pl + u + l, t, l);
    var f := StatLine("Files Processed", StatOr(stats, "files_processed"));
    var rest := StatLine("Functions Documented", StatOr(stats, "functions_documented"))
      + StatLine("Classes Documented", StatOr(stats, "classes_documented"));
    var last := StatLine("Diagrams Generated", StatOr(stats, "diagrams_generated"));
    ContainsSelf(f);
    ContainsLeft(f, StatLine("Functions Documented", StatOr(stats, "functions_documented")), f);
    ContainsLeft(f + StatLine("Functions Documented", StatOr(stats, "functions_documented")),
                 StatLine("Classes Documented", StatOr(stats, "classes_documented")), f);
    ContainsLeft(f + StatLine("Functions Documented", StatOr(stats, "functions_documented"))
                 + StatLine("Classes Documented", StatOr(stats, "classes_documented")), last, f);
    ContainsRight(h + r + pl + u, l, f);
    ContainsLeft(h + r + pl + u + l, t, f);
  }
}
