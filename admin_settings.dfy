/** The administrator's settings screen: four sections of flags and values,
    edited one key at a time, saved to and loaded from local storage, and a
    "Test" button per testable integration. */
module AdminSettings {
  import opened Wrappers
  import opened Dicts
  import opened Strings
  import opened JsonValues
  import opened Storage

  const SettingsKey := "adminSettings"

  /** The settings the screen starts with, section by section. */
  const GeneralDefaults: Dict<Json> := [
    ("platformName", JStr("BizBoost Hub")),
    ("platformDescription", JStr("Empowering South African entrepreneurs")),
    ("maintenanceMode", JBool(false)),
    ("registrationEnabled", JBool(true)),
    ("defaultLanguage", JStr("en"))]

  const SecurityDefaults: Dict<Json> := [
    ("requireEmailVerification", JBool(false)),
    ("sessionTimeout", JNum(24)),
    ("maxLoginAttempts", JNum(5)),
    ("passwordMinLength", JNum(6)),
    ("twoFactorRequired", JBool(false))]

  const NotificationDefaults: Dict<Json> := [
    ("emailNotifications", JBool(true)),
    ("adminAlerts", JBool(true)),
    ("systemUpdates", JBool(true)),
    ("marketingEmails", JBool(false))]

  const IntegrationDefaults: Dict<Json> := [
    ("supabaseConnected", JBool(true)),
    ("emailServiceConnected", JBool(false)),
    ("analyticsConnected", JBool(false)),
    ("paymentGatewayConnected", JBool(false))]

  const DefaultSettings: Json := JObj([
    ("general", JObj(GeneralDefaults)),
    ("security", JObj(SecurityDefaults)),
    ("notifications", JObj(NotificationDefaults)),
    ("integrations", JObj(IntegrationDefaults))])

  /** `settings[section][key]`. */
  function Setting(settings: Json, section: string, key: string): Json {
    Get(Get(settings, section), key)
  }

  /** Each section name reads its own defaults. */
  lemma DefaultSections(settings: Json)
    requires settings == DefaultSettings
    ensures Get(settings, "general") == JObj(GeneralDefaults)
    ensures Get(settings, "security") == JObj(SecurityDefaults)
    ensures Get(settings, "notifications") == JObj(NotificationDefaults)
    ensures Get(settings, "integrations") == JObj(IntegrationDefaults)
  {
    var d := settings.fields;
    forall i, j | 0 <= j < i < 4 ensures d[j].0 != d[i].0 {
      assert d[j].0[0] != d[i].0[0];
    }
    LookupFirst(d, 0);
    LookupFirst(d, 1);
    LookupFirst(d, 2);
    LookupFirst(d, 3);
  }

  /** Only Supabase starts connected. */
  lemma DefaultIntegrations(settings: Json)
    requires settings == DefaultSettings
    ensures Setting(settings, "integrations", "supabaseConnected") == JBool(true)
    ensures Setting(settings, "integrations", "emailServiceConnected") == JBool(false)
  {
    DefaultSections(settings);
    var s := IntegrationDefaults;
    assert s[0].0[0] != s[1].0[0];
    LookupFirst(s, 0);
    LookupFirst(s, 1);
  }

  /** The login and session limits the screen starts with. */
  lemma DefaultSecurity(settings: Json)
    requires settings == DefaultSettings
    ensures Setting(settings, "security", "sessionTimeout") == JNum(24)
    ensures Setting(settings, "security", "maxLoginAttempts") == JNum(5)
    ensures Setting(settings, "security", "passwordMinLength") == JNum(6)
  {
    DefaultSections(settings);
    var s := SecurityDefaults;
    forall j | 0 <= j < 3 ensures s[j].0 != s[3].0 {
      assert |s[j].0| != |s[3].0|;
    }
    forall j | 0 <= j < 2 ensures s[j].0 != s[2].0 {
      assert s[j].0[0] != s[2].0[0];
    }
    LookupFirst(s, 1);
    LookupFirst(s, 2);
    LookupFirst(s, 3);
  }

  /** `updateSetting(section, key, value)`:
      `{ ...prev, [section]: { ...prev[section], [key]: value } }`. */
  function UpdateSetting(settings: Json, section: string, key: string, value: Json): (r: Json)
    ensures Setting(r, section, key) == value
  {
    WithGetSame(settings, section, With(Get(settings, section), key, value));
    WithGetSame(Get(settings, section), key, value);
    With(settings, section, With(Get(settings, section), key, value))
  }

  /** After an update the edited setting reads back the new value and every
      other setting, in the same or another section, reads as before. */
  lemma UpdateSettingReads(settings: Json, section: string, key: string, value: Json, s: string, k: string)
    ensures Setting(UpdateSetting(settings, section, key, value), s, k) ==
              if s == section && k == key then value else Setting(settings, s, k)
  {
    var inner := With(Get(settings, section), key, value);
    if s == section {
      WithGetSame(settings, section, inner);
      if k == key {
        WithGetSame(Get(settings, section), key, value);
      } else {
        WithGetOther(Get(settings, section), key, value, k);
      }
    } else {
      WithGetOther(settings, section, inner, s);
    }
  }

  /** An update of a section that exists keeps the sections in their order. */
  lemma UpdateSettingSections(settings: Json, section: string, key: string, value: Json)
    requires settings.JObj? && HasKey(settings.fields, section)
    ensures Keys(Fields(UpdateSetting(settings, section, key, value))) == Keys(settings.fields)
  {
    PutKeys(settings.fields, section, With(Get(settings, section), key, value));
  }

  /** The Connect/Disconnect button: `!settings.integrations[key]`. */
  function ToggleIntegration(settings: Json, key: string): (r: Json)
    ensures Setting(r, "integrations", key) == JBool(!Truthy(Setting(settings, "integrations", key)))
  {
    UpdateSetting(settings, "integrations", key, JBool(!Truthy(Setting(settings, "integrations", key))))
  }

  /** The button stores the negation of what the indicator showed, so pressing
      it twice shows the first state again; no other setting moves. */
  lemma ToggleIntegrationFlips(settings: Json, key: string, s: string, k: string)
    ensures Setting(ToggleIntegration(settings, key), "integrations", key) ==
              JBool(!Truthy(Setting(settings, "integrations", key)))
    ensures Truthy(Setting(ToggleIntegration(ToggleIntegration(settings, key), key), "integrations", key)) ==
              Truthy(Setting(settings, "integrations", key))
    ensures (s, k) != ("integrations", key) ==>
              Setting(ToggleIntegration(settings, key), s, k) == Setting(settings, s, k)
  {
    var once := ToggleIntegration(settings, key);
    var b := JBool(!Truthy(Setting(settings, "integrations", key)));
    UpdateSettingReads(settings, "integrations", key, b, "integrations", key);
    UpdateSettingReads(settings, "integrations", key, b, s, k);
    UpdateSettingReads(once, "integrations", key, JBool(!Truthy(Setting(once, "integrations", key))), "integrations", key);
  }

  /** The button label beside an integration. */
  function ToggleLabel(settings: Json, key: string): (text: string)
    ensures text == "Disconnect" <==> Truthy(Setting(settings, "integrations", key))
  {
    if Truthy(Setting(settings, "integrations", key)) then "Disconnect" else "Connect"
  }

  /** `loadSettings`: a missing or empty item keeps the current settings, a
      saved one replaces them whole, and text that does not parse is logged
      and leaves them as they were. */
  function LoadedSettings(items: map<string, Item>, current: Json): (r: Json)
    ensures SettingsKey !in items ==> r == current
    ensures SettingsKey in items && items[SettingsKey].Raw? ==> r == current
  {
    match ParseStored(ItemAt(items, SettingsKey), current)
    case Ok(j) => j
    case Err(_) => current
  }

  /** What `saveSettings` writes is what the next `loadSettings` reads,
      whatever the screen showed before loading. */
  lemma SaveThenLoad(items: map<string, Item>, saved: Json, current: Json)
    ensures LoadedSettings(items[SettingsKey := Encoded(saved)], current) == saved
  {
  }

  /** `integration.key.replace('Connected', '')`, the service name the Test
      button passes. */
  function ServiceName(key: string): (r: string)
    ensures !Contains(key, "Connected") ==> r == key
  {
    ReplaceFirstNoMatch(key, "Connected", "");
    ReplaceFirst(key, "Connected", "")
  }

  /** The alert `testConnection(service)` shows; `dbError` is whether the
      probe query against `profiles` failed. */
  function TestConnectionAlert(service: string, dbError: bool): (alert: string)
    ensures service == "supabase" && !dbError ==> alert == "Supabase connection successful!"
    ensures service == "supabase" && dbError ==> alert == "Error testing supabase connection"
    ensures service == "email" ==> alert == "Email service test would be implemented here"
    ensures service != "supabase" && service != "email" ==>
              alert == service + " connection test would be implemented here"
  {
    if service == "supabase" then
      (if dbError then "Error testing supabase connection" else "Supabase connection successful!")
    else if service == "email" then "Email service test would be implemented here"
    else service + " connection test would be implemented here"
  }

  /** A key made of a name with no capital C and the suffix `Connected`
      loses exactly that suffix. */
  lemma ServiceNameStripsSuffix(key: string, base: string)
    requires key == base + "Connected" && 'C' !in base
    ensures ServiceName(key) == base
  {
    ReplaceFirstAfterPrefix(base, "Connected", "", "");
    assert base + "Connected" + "" == key;
    assert base + "" == base;
  }

  /** The Supabase button reaches its own case. */
  lemma SupabaseServiceName()
    ensures ServiceName("supabaseConnected") == "supabase"
  {
    ServiceNameStripsSuffix("supabaseConnected", "supabase");
  }

  /** As written, the e-mail button passes `emailService`, which the switch
      has no case for, so its dedicated message can never be shown. */
  lemma EmailServiceNameMissesCase(key: string, dbError: bool)
    requires key == "emailServiceConnected"
    ensures ServiceName(key) == "emailService"
    ensures TestConnectionAlert(ServiceName(key), dbError) ==
              "emailService" + " connection test would be implemented here"
  {
    ServiceNameStripsSuffix(key, "emailService");
  }

  /** The name each testable integration's button was meant to pass: the key
      without its `Connected` suffix, and without `Service` before it. */
  function IntendedServiceName(key: string): string {
    if EndsWith(key, "ServiceConnected") then key[..|key| - |"ServiceConnected"|]
    else if EndsWith(key, "Connected") then key[..|key| - |"Connected"|]
    else key
  }

  /** Both testable integrations reach their own case of the switch. */
  lemma IntendedServiceNames(e: string, s: string, dbError: bool)
    requires e == "emailServiceConnected" && s == "supabaseConnected"
    ensures IntendedServiceName(s) == "supabase"
    ensures IntendedServiceName(e) == "email"
    ensures TestConnectionAlert(IntendedServiceName(e), dbError) ==
              "Email service test would be implemented here"
  {
    assert e[|e| - 16..] == "ServiceConnected";
    assert s[|s| - 16..] != "ServiceConnected" by { assert s[|s| - 16] != 'S'; }
    assert s[|s| - 9..] == "Connected";
  }

  /** One row of the integrations list. */
  datatype Integration = Integration(name: string, key: string, testable: bool)

  const Integrations := [
    Integration("Supabase Database", "supabaseConnected", true),
    Integration("Email Service", "emailServiceConnected", true),
    Integration("Analytics Service", "analyticsConnected", false),
    Integration("Payment Gateway", "paymentGatewayConnected", false)]

  class AdminSettingsPage {
    var settings: Json
    var lastSaved: Option<nat>

    constructor ()
      ensures settings == DefaultSettings && lastSaved == None
    {
      settings := DefaultSettings;
      lastSaved := None;
    }

    method LoadSettings(store: LocalStorage)
      modifies this
      ensures settings == LoadedSettings(store.items, old(settings))
      ensures lastSaved == old(lastSaved)
    {
      var saved := store.GetItem(SettingsKey);
      var parsed := ParseStored(saved, settings);
      if parsed.Ok? {
        settings := parsed.value;
      }
    }

    /** `saveSettings`; `now` is the time of the save, and `writeRefused`
        says whether the browser refused the write (`setItem` throws when the
        storage quota is exceeded), which the handler catches. */
    method SaveSettings(store: LocalStorage, now: nat, writeRefused: bool) returns (alert: string)
      modifies this, store
      ensures settings == old(settings)
      ensures !writeRefused ==> store.items == old(store.items)[SettingsKey := Encoded(settings)]
                                && lastSaved == Some(now) && alert == "Settings saved successfully!"
      ensures writeRefused ==> store.items == old(store.items)
                               && lastSaved == old(lastSaved) && alert == "Error saving settings"
    {
      if writeRefused {
        return "Error saving settings";
      }
      store.SetItem(SettingsKey, Encoded(settings));
      lastSaved := Some(now);
      alert := "Settings saved successfully!";
    }

    method HandleUpdate(section: string, key: string, value: Json)
      modifies this
      ensures settings == UpdateSetting(old(settings), section, key, value)
      ensures lastSaved == old(lastSaved)
    {
      settings := UpdateSetting(settings, section, key, value);
    }

    method HandleToggle(i: nat)
      requires i < |Integrations|
      modifies this
      ensures settings == ToggleIntegration(old(settings), Integrations[i].key)
      ensures lastSaved == old(lastSaved)
    {
      settings := ToggleIntegration(settings, Integrations[i].key);
    }

    /** The Test button of a testable integration, as written: it passes the
        key with `Connected` replaced, so the database button reaches the
        Supabase probe and the e-mail button the generic message. */
    method HandleTest(i: nat, dbError: bool) returns (alert: string)
      requires i < |Integrations| && Integrations[i].testable
      ensures alert == TestConnectionAlert(ServiceName(Integrations[i].key), dbError)
      ensures i == 0 ==> alert == if dbError then "Error testing supabase connection" else "Supabase connection successful!"
      ensures i == 1 ==> alert == "emailService" + " connection test would be implemented here"
    {
      var key := Integrations[i].key;
      var service: string;
      if i == 0 {
        SupabaseServiceName();
        service := "supabase";
      } else {
        EmailServiceNameMissesCase(key, dbError);
        service := "emailService";
      }
      assert service == ServiceName(key);
      alert := TestConnectionAlert(service, dbError);
    }
  }
}
