/** The document seen through its active profile: reading and writing one effective config. */
module Lenses {
  import opened Options
  import opened Text
  import opened Config
  import opened ConfigLaws

  /** The settings stored for a config; the enabled flag lives in the document, not in the profile. */
  function Stored(c: Config): ProfileConfig {
    ProfilePart(c).(tunnel := c.tunnel.(enabled := false))
  }

  function ActiveIndex(d: Document): nat {
    FirstWithID(d.profiles, d.activeProfileID)
  }

  lemma {:induction false} FirstWithIDAfterUpdate(ps: seq<Profile>, id: string, settings: ProfileConfig)
    requires FirstWithID(ps, id) < |ps|
    ensures var i := FirstWithID(ps, id); FirstWithID(ps[i := ps[i].(config := settings)], id) == i
  {
    var i := FirstWithID(ps, id);
    FirstWithIDSame(ps, ps[i := ps[i].(config := settings)], id);
  }

  /** What writing a config into a document does: it succeeds exactly when the active profile exists,
      and then sets the shared fields and the settings of that one profile. Every other profile, the
      order, the ids and the names, the active id and the storage format stay as they were. */
  lemma PutFrame(d: Document, c: Config)
    ensures PutConfig(d, c).Some? <==> ActiveProfile(d).Some?
    ensures PutConfig(d, c).Some? ==>
      var e := PutConfig(d, c).value;
      && e.storageFormat == d.storageFormat
      && e.activeProfileID == d.activeProfileID
      && e.tunnelEnabled == c.tunnel.enabled
      && e.server == c.server
      && |e.profiles| == |d.profiles|
      && (forall j :: 0 <= j < |d.profiles| && j != ActiveIndex(d) ==> e.profiles[j] == d.profiles[j])
      && e.profiles[ActiveIndex(d)] == d.profiles[ActiveIndex(d)].(config := Stored(c))
      && ActiveIndex(e) == ActiveIndex(d)
  {
    if ActiveProfile(d).Some? {
      FirstWithIDAfterUpdate(d.profiles, d.activeProfileID, Stored(c));
    }
    hide FirstWithID;
  }

  /** Reading after writing gives back what was written, with defaults filled in. */
  lemma PutGet(d: Document, c: Config)
    requires PutConfig(d, c).Some?
    ensures ActiveConfig(PutConfig(d, c).value) == Some(ConfigDefaults(c))
  {
    PutFrame(d, c);
    hide PutConfig, FirstWithID, ConfigDefaults;
    assert c.tunnel.(enabled := false).(enabled := c.tunnel.enabled) == c.tunnel;
  }

  /** The document already holds its defaults where the effective config looks. */
  predicate Settled(d: Document) {
    var i := ActiveIndex(d);
    && i < |d.profiles|
    && ServerDefaults(d.server) == d.server
    && ProfileDefaults(d.profiles[i].config) == d.profiles[i].config
    && !d.profiles[i].config.tunnel.enabled
  }

  lemma StoredEffective(p: ProfileConfig, enabled: bool, s: ServerConfig)
    ensures Stored(Effective(p, enabled, s)) == p <==> ProfileDefaults(p) == p && !p.tunnel.enabled
    ensures Effective(p, enabled, s).server == ServerDefaults(s)
    ensures Effective(p, enabled, s).tunnel.enabled == enabled
  {
    hide IsBlank;
  }

  /** Writing back what was read changes nothing exactly when defaults were already filled in. */
  lemma GetPutIff(d: Document)
    requires ActiveConfig(d).Some?
    ensures PutConfig(d, ActiveConfig(d).value) == Some(d) <==> Settled(d)
  {
    var c := ActiveConfig(d).value;
    var i := ActiveIndex(d);
    PutFrame(d, c);
    StoredEffective(d.profiles[i].config, d.tunnelEnabled, d.server);
    hide FirstWithID, Effective, ProfileDefaults, ServerDefaults, PutConfig, Stored;
    var e := PutConfig(d, c).value;
    assert e.profiles == d.profiles[i := d.profiles[i].(config := Stored(c))];
    assert e.profiles == d.profiles <==> d.profiles[i].config == Stored(c);
  }

  /** The last write wins. */
  lemma PutPut(d: Document, c: Config, c': Config)
    requires PutConfig(d, c).Some?
    ensures PutConfig(PutConfig(d, c).value, c') == PutConfig(d, c')
  {
    var e := PutConfig(d, c).value;
    PutFrame(d, c);
    PutFrame(d, c');
    PutFrame(e, c');
    hide PutConfig, FirstWithID, Stored;
    var a, b := PutConfig(e, c').value, PutConfig(d, c').value;
    assert a.profiles == b.profiles;
  }
}
