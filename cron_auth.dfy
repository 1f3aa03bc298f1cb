/** The guard shared by the two cron routes: in production the
    `authorization` header must equal `Bearer ${CRON_SECRET}`. */
module CronAuth {
  import opened Wrappers

  /** The expected header; an unset secret is interpolated as "undefined". */
  function ExpectedBearer(secret: Option<string>): (r: string)
    ensures |r| >= 7 && r[..7] == "Bearer "
  {
    "Bearer " + (if secret.Some? then secret.value else "undefined")
  }

  /** Outside production every request passes; in production only the exact
      header does, so a missing header is refused. */
  function CronAuthorized(production: bool, header: Option<string>, secret: Option<string>): (b: bool)
    ensures !production ==> b
    ensures production && header.None? ==> !b
    ensures production && b ==> header.Some? && |header.value| >= 7 && header.value[..7] == "Bearer "
  {
    !production || header == Some(ExpectedBearer(secret))
  }

  /** In production a missing header, or any header other than the bearer
      secret, is refused; with the secret unset the literal
      "Bearer undefined" is accepted. */
  lemma CronAuthorizedInProduction(header: Option<string>, secret: Option<string>)
    ensures header.None? ==> !CronAuthorized(true, header, secret)
    ensures secret.Some? ==> (CronAuthorized(true, header, secret) <==> header == Some("Bearer " + secret.value))
    ensures secret.None? ==> (CronAuthorized(true, header, secret) <==> header == Some("Bearer undefined"))
  {
    assert "Bearer " + "undefined" == "Bearer undefined";
    if secret.Some? {
      assert ExpectedBearer(secret) == "Bearer " + secret.value;
    }
  }
}
