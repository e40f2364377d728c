/** The settings handler beyond the generic ones: removing every inactive record. */
module SettingsController {
  import opened Json
  import opened Http
  import opened SettingsModel

  /** `deleteInactiveSettings`: 204 with `data: null`. */
  method DeleteInactiveSettings(table: SettingsTable) returns (reply: Reply)
    requires table.Valid()
    modifies table
    ensures table.Valid()
    ensures table.settings == WithoutInactive(old(table.settings))
    ensures reply == Respond(204, NoContent)
  {
    table.DeleteInactive();
    reply := Respond(204, NoContent);
  }

  /** After the delete no inactive record remains and every active one is still there. */
  lemma DeleteKeepsExactlyActive(ss: seq<Setting>, s: Setting)
    ensures s in WithoutInactive(ss) ==> !Inactive(s)
    ensures s in ss && !Inactive(s) ==> s in WithoutInactive(ss)
  {
    WithoutInactiveMembers(ss, s);
  }
}
