/**
 * The business settings screen (project/src/components/Settings.tsx): the
 * form built from the stored business details, the checks a chosen logo file
 * must pass before it is sent, the two upload routes (the PDF server first,
 * then direct storage), removing the logo and saving the form.
 * `SettingsPage` holds the component's state; the storage, the server and
 * the details hook are outside the model, and what they answer is passed in.
 */
module Settings {
  import opened Wrappers
  import opened Js
  import opened Types
  import LogoUpload
  import InvoiceForm

  /** The settings form's state. */
  datatype SettingsForm = SettingsForm(
    name: string,
    address: string,
    phone: string,
    email: string,
    website: string,
    logoUrl: string,
    labourRatePerHour: real,
    bankAccountHolder: string,
    bankAccountType: string,
    bankAccountNumber: string,
    bankName: string,
    bankBranchCode: string,
    currency: string,
    defaultVatRate: real,
    invoiceTerms: string)

  /** `businessDetails?.field`: nothing when there are no details. */
  function Field<T>(details: Option<BusinessDetails>, get: BusinessDetails -> Option<T>): Option<T> {
    if details.Some? then get(details.value) else None
  }

  /** The form for the stored details, each field with its `|| default`. */
  function FormFrom(details: Option<BusinessDetails>): SettingsForm {
    SettingsForm(
      OrText(Field(details, (d: BusinessDetails) => d.name), ""),
      OrText(Field(details, (d: BusinessDetails) => d.address), ""),
      OrText(Field(details, (d: BusinessDetails) => d.phone), ""),
      OrText(Field(details, (d: BusinessDetails) => d.email), ""),
      OrText(Field(details, (d: BusinessDetails) => d.website), ""),
      OrText(Field(details, (d: BusinessDetails) => d.logoUrl), ""),
      OrNumber(Field(details, (d: BusinessDetails) => d.labourRatePerHour), 0.0),
      OrText(Field(details, (d: BusinessDetails) => d.bankAccountHolder), ""),
      OrText(Field(details, (d: BusinessDetails) => d.bankAccountType), "BUSINESS ACCOUNT"),
      OrText(Field(details, (d: BusinessDetails) => d.bankAccountNumber), ""),
      OrText(Field(details, (d: BusinessDetails) => d.bankName), ""),
      OrText(Field(details, (d: BusinessDetails) => d.bankBranchCode), ""),
      OrText(Field(details, (d: BusinessDetails) => d.currency), "R"),
      OrNumber(Field(details, (d: BusinessDetails) => d.defaultVatRate), 15.0),
      OrText(Field(details, (d: BusinessDetails) => d.invoiceTerms), ""))
  }

  /** The form shown before any details have been loaded. */
  const EmptyForm := SettingsForm("", "", "", "", "", "", 0.0, "", "BUSINESS ACCOUNT", "", "", "", "R", 15.0, "")

  /**
   * Without details every field takes its default. With details, a stored
   * non-empty currency, account type or logo is shown as stored; the currency
   * and the account type are never empty and the rate is never 0, and the rate
   * is the one the invoice form starts new lines with.
   */
  lemma FormFromDefaults(details: Option<BusinessDetails>)
    ensures details.None? ==> FormFrom(details) == EmptyForm
    ensures FormFrom(details).currency != "" && FormFrom(details).bankAccountType != ""
    ensures FormFrom(details).defaultVatRate != 0.0
    ensures FormFrom(details).defaultVatRate == InvoiceForm.DefaultVatRate(details)
    ensures details.Some? && details.value.currency.Some? && details.value.currency.value != "" ==>
      FormFrom(details).currency == details.value.currency.value
    ensures details.Some? && details.value.bankAccountType.Some? && details.value.bankAccountType.value != "" ==>
      FormFrom(details).bankAccountType == details.value.bankAccountType.value
    ensures details.Some? && details.value.logoUrl.Some? ==> FormFrom(details).logoUrl == details.value.logoUrl.value
    ensures details.Some? && (details.value.currency.None? || details.value.currency.value == "") ==>
      FormFrom(details).currency == "R"
    ensures details.Some? && (details.value.bankAccountType.None? || details.value.bankAccountType.value == "") ==>
      FormFrom(details).bankAccountType == "BUSINESS ACCOUNT"
    ensures details.Some? && (details.value.defaultVatRate.None? || details.value.defaultVatRate.value == 0.0) ==>
      FormFrom(details).defaultVatRate == 15.0
    ensures details.Some? && (details.value.labourRatePerHour.None? || details.value.labourRatePerHour.value == 0.0) ==>
      FormFrom(details).labourRatePerHour == 0.0
    ensures details.Some? && details.value.name.None? ==> FormFrom(details).name == ""
    ensures details.Some? && details.value.address.None? ==> FormFrom(details).address == ""
    ensures details.Some? && details.value.phone.None? ==> FormFrom(details).phone == ""
    ensures details.Some? && details.value.email.None? ==> FormFrom(details).email == ""
    ensures details.Some? && details.value.website.None? ==> FormFrom(details).website == ""
    ensures details.Some? && details.value.logoUrl.None? ==> FormFrom(details).logoUrl == ""
    ensures details.Some? && details.value.bankAccountHolder.None? ==> FormFrom(details).bankAccountHolder == ""
    ensures details.Some? && details.value.bankAccountNumber.None? ==> FormFrom(details).bankAccountNumber == ""
    ensures details.Some? && details.value.bankName.None? ==> FormFrom(details).bankName == ""
    ensures details.Some? && details.value.bankBranchCode.None? ==> FormFrom(details).bankBranchCode == ""
    ensures details.Some? && details.value.invoiceTerms.None? ==> FormFrom(details).invoiceTerms == ""
    ensures details.Some? && details.value.name.Some? ==> FormFrom(details).name == details.value.name.value
  {
  }

  /** The details `handleSubmit` hands to `updateBusinessDetails`: every field of the form. */
  function Saved(f: SettingsForm): BusinessDetails {
    BusinessDetails(
      Some(f.name), Some(f.address), Some(f.phone), Some(f.email), Some(f.website),
      Some(f.logoUrl), Some(f.labourRatePerHour), Some(f.bankAccountHolder),
      Some(f.bankAccountType), Some(f.bankAccountNumber), Some(f.bankName),
      Some(f.bankBranchCode), Some(f.currency), Some(f.defaultVatRate), Some(f.invoiceTerms))
  }

  /**
   * Saving the form and loading the saved details back shows the same form:
   * the defaults the form filled in survive their own `|| default`.
   */
  lemma SaveThenReload(details: Option<BusinessDetails>)
    ensures FormFrom(Some(Saved(FormFrom(details)))) == FormFrom(details)
  {
    FormFromDefaults(details);
  }

  /**
   * A form the user edited survives saving and reloading exactly when it
   * leaves the currency and the account type non-empty and the VAT rate
   * non-zero: the reload applies `|| default` again, so a cleared currency
   * comes back as 'R', a cleared account type as 'BUSINESS ACCOUNT' and a
   * zero rate as 15.
   */
  lemma ReloadRestoresDefaults(f: SettingsForm)
    ensures FormFrom(Some(Saved(f))).currency == (if f.currency == "" then "R" else f.currency)
    ensures FormFrom(Some(Saved(f))).bankAccountType ==
      (if f.bankAccountType == "" then "BUSINESS ACCOUNT" else f.bankAccountType)
    ensures FormFrom(Some(Saved(f))).defaultVatRate == (if f.defaultVatRate == 0.0 then 15.0 else f.defaultVatRate)
    ensures FormFrom(Some(Saved(f))) == f <==>
      f.currency != "" && f.bankAccountType != "" && f.defaultVatRate != 0.0
  {
    var g := FormFrom(Some(Saved(f)));
    if f.currency != "" && f.bankAccountType != "" && f.defaultVatRate != 0.0 {
      assert g.name == f.name && g.address == f.address && g.phone == f.phone;
      assert g.email == f.email && g.website == f.website && g.logoUrl == f.logoUrl;
      assert g.labourRatePerHour == f.labourRatePerHour && g.bankAccountHolder == f.bankAccountHolder;
      assert g.bankAccountNumber == f.bankAccountNumber && g.bankName == f.bankName;
      assert g.bankBranchCode == f.bankBranchCode && g.invoiceTerms == f.invoiceTerms;
    }
  }

  // ---------------------------------------------------------------------
  // Choosing a logo file
  // ---------------------------------------------------------------------

  /** The chosen file: its name, its MIME type and its size in bytes. */
  datatype SelectedFile = SelectedFile(name: string, mimeType: string, size: nat)

  const AcceptedMimeTypes: seq<string> := ["image/png", "image/jpeg", "image/svg+xml", "image/webp"]

  /** 2 MiB. */
  const MaxLogoBytes: nat := 2 * 1024 * 1024

  const WrongTypeMessage := "Please upload a PNG, JPG, SVG, or WEBP image"
  const TooLargeMessage := "File too large (max 2MB)"

  datatype FileCheck = Accept | Reject(message: string)

  /** The checks before anything is sent: the type first, then the size. */
  function CheckLogoFile(file: SelectedFile): (c: FileCheck)
    ensures c == Accept <==> file.mimeType in AcceptedMimeTypes && file.size <= MaxLogoBytes
    ensures file.mimeType !in AcceptedMimeTypes ==> c == Reject(WrongTypeMessage)
    ensures file.mimeType in AcceptedMimeTypes && file.size > MaxLogoBytes ==> c == Reject(TooLargeMessage)
  {
    if file.mimeType !in AcceptedMimeTypes then Reject(WrongTypeMessage)
    else if file.size > MaxLogoBytes then Reject(TooLargeMessage)
    else Accept
  }

  /** A file of the wrong type is refused for its type whatever its size; 2 MiB itself passes. */
  lemma CheckLogoFileOrder(name: string, mimeType: string, size: nat)
    ensures mimeType !in AcceptedMimeTypes ==>
      CheckLogoFile(SelectedFile(name, mimeType, size)) == CheckLogoFile(SelectedFile(name, mimeType, 0))
    ensures CheckLogoFile(SelectedFile(name, "image/png", 2097152)) == Accept
    ensures CheckLogoFile(SelectedFile(name, "image/png", 2097153)) == Reject(TooLargeMessage)
  {
  }

  /** `import.meta.env.VITE_PDF_SERVER_URL || 'http://localhost:4000'`. */
  function ServerBase(env: Env): string {
    OrText(EnvValue(env, "VITE_PDF_SERVER_URL"), "http://localhost:4000")
  }

  /** The storage key of the direct upload: the server's key rule over the client's extension rule. */
  function ClientKey(file: SelectedFile, now: nat, nonce: string): string {
    LogoUpload.StorageKey(now, nonce, LogoUpload.Extension(file.name))
  }

  /** The direct-upload key lies under 'logos/' and ends in the extension derived from the file name. */
  lemma ClientKeyShape(file: SelectedFile, now: nat, nonce: string)
    ensures StartsWith(ClientKey(file, now, nonce), "logos/")
    ensures EndsWith(ClientKey(file, now, nonce), "." + LogoUpload.Extension(file.name))
    ensures LogoUpload.Allowed(LogoUpload.Extension(file.name)) ==>
      LogoUpload.Extension(ClientKey(file, now, nonce)) == LogoUpload.Extension(file.name)
  {
    var ext := LogoUpload.Extension(file.name);
    LogoUpload.StorageKeyShape(now, nonce, ext);
    if LogoUpload.Allowed(ext) {
      LogoUpload.StorageKeyRoundTrip(now, nonce, ext);
    }
  }

  // ---------------------------------------------------------------------
  // The component
  // ---------------------------------------------------------------------

  /** What `updateBusinessDetails` is asked to store: the whole form, or only the logo. */
  datatype Patch = WholeForm(form: SettingsForm) | LogoOnly(logoUrl: string)

  /** What the handlers do outside the component's own state. */
  datatype SettingsEffect =
    | Alert(message: string)
    | PostLogo(url: string)
    | StoreLogo(key: string, contentType: string)
    | UpdateDetails(patch: Patch)

  /** The server's answer to the posted file: its public URL, or any failure (non-2xx, unreadable body, network). */
  datatype ServerUpload = ServerUploaded(publicUrl: string) | ServerFailed

  /** The storage client's answer: the public URL of the stored key, or an error. */
  datatype StorageUpload = Stored(publicUrl: string) | StoreFailed

  /** The server route finished: the server stored the file and its URL was saved in the details. */
  predicate ServerRouteDone(server: ServerUpload, serverSaved: bool) {
    server.ServerUploaded? && serverSaved
  }

  /** After the post, a server URL is saved in the details; a failed post does nothing more. */
  function ServerRouteEffects(server: ServerUpload): seq<SettingsEffect> {
    if server.ServerUploaded? then [UpdateDetails(LogoOnly(server.publicUrl))] else []
  }

  /**
   * The direct upload: the file is stored under `key`, then its URL saved in
   * the details; a failure in either step ends in one alert.
   */
  function DirectUploadEffects(key: string, contentType: string, storage: StorageUpload, clientSaved: bool): (e: seq<SettingsEffect>)
    ensures |e| >= 2 && e[0] == StoreLogo(key, contentType)
    ensures e[|e| - 1] == Alert(UploadFailedMessage) <==> storage.StoreFailed? || !clientSaved
    ensures storage.Stored? ==> e[1] == UpdateDetails(LogoOnly(storage.publicUrl))
  {
    [StoreLogo(key, contentType)]
    + if storage.Stored? then
        [UpdateDetails(LogoOnly(storage.publicUrl))] + (if clientSaved then [] else [Alert(UploadFailedMessage)])
      else [Alert(UploadFailedMessage)]
  }

  /** Everything an accepted file leads to: the post, the server route's save, and the direct upload when needed. */
  function UploadEffects(postUrl: string, server: ServerUpload, serverSaved: bool,
                         key: string, contentType: string, storage: StorageUpload, clientSaved: bool): seq<SettingsEffect>
  {
    [PostLogo(postUrl)]
    + ServerRouteEffects(server)
    + (if ServerRouteDone(server, serverSaved) then [] else DirectUploadEffects(key, contentType, storage, clientSaved))
  }

  /**
   * The file is stored directly exactly when the server route did not
   * finish, and the upload ends in an alert exactly when neither route got
   * the logo saved in the details.
   */
  lemma UploadEffectsOutcome(postUrl: string, server: ServerUpload, serverSaved: bool,
                             key: string, contentType: string, storage: StorageUpload, clientSaved: bool)
    ensures var e := UploadEffects(postUrl, server, serverSaved, key, contentType, storage, clientSaved);
      (StoreLogo(key, contentType) in e <==> !ServerRouteDone(server, serverSaved))
    ensures var e := UploadEffects(postUrl, server, serverSaved, key, contentType, storage, clientSaved);
      (Alert(UploadFailedMessage) in e <==> !ServerRouteDone(server, serverSaved) && (storage.StoreFailed? || !clientSaved))
    ensures var e := UploadEffects(postUrl, server, serverSaved, key, contentType, storage, clientSaved);
      e[0] == PostLogo(postUrl) && PostLogo(postUrl) !in e[1..]
  {
    var e := UploadEffects(postUrl, server, serverSaved, key, contentType, storage, clientSaved);
    var head := [PostLogo(postUrl)] + ServerRouteEffects(server);
    assert forall x :: x in head ==> !x.StoreLogo? && !x.Alert?;
    if !ServerRouteDone(server, serverSaved) {
      var d := DirectUploadEffects(key, contentType, storage, clientSaved);
      assert e == head + d;
      assert e[|head|] == StoreLogo(key, contentType);
      if storage.Stored? && clientSaved {
        assert d == [StoreLogo(key, contentType), UpdateDetails(LogoOnly(storage.publicUrl))];
      }
    } else {
      assert e == head;
    }
  }

  const UploadFailedMessage := "Logo upload failed. Configure server SUPABASE_SERVICE_KEY or set storage policy for client uploads."

  class SettingsPage {
    var formData: SettingsForm
    var saving: bool
    var uploadingLogo: bool
    /** The value of the file input. */
    var fileInput: string

    constructor (details: Option<BusinessDetails>)
      ensures formData == FormFrom(details)
      ensures !saving && !uploadingLogo && fileInput == ""
    {
      formData := FormFrom(details);
      saving := false;
      uploadingLogo := false;
      fileInput := "";
    }

    /** The effect that reloads the form whenever the details arrive; absent details leave it be. */
    method LoadDetails(details: Option<BusinessDetails>)
      modifies this
      ensures details.Some? ==> formData == FormFrom(details)
      ensures details.None? ==> formData == old(formData)
      ensures saving == old(saving) && uploadingLogo == old(uploadingLogo) && fileInput == old(fileInput)
    {
      if details.Some? {
        formData := FormFrom(details);
      }
    }

    /** `handleSubmit`: stores the whole form (outcome `updated`) and reports the result. */
    method HandleSubmit(updated: bool) returns (effects: seq<SettingsEffect>)
      modifies this
      ensures formData == old(formData) && !saving
      ensures uploadingLogo == old(uploadingLogo) && fileInput == old(fileInput)
      ensures effects == [
        UpdateDetails(WholeForm(old(formData))),
        Alert(if updated then "Settings saved successfully!" else "Failed to save settings")]
    {
      saving := true;
      effects := [UpdateDetails(WholeForm(formData))];
      if updated {
        effects := effects + [Alert("Settings saved successfully!")];
      } else {
        effects := effects + [Alert("Failed to save settings")];
      }
      saving := false;
    }

    /**
     * `handleLogoUpload`. No file: nothing happens. A refused file: only the
     * alert. Otherwise the file is posted to the server; when that fails, or
     * storing the server's URL in the details fails (`serverSaved`), the file
     * is stored directly under `ClientKey` and that URL saved (`clientSaved`);
     * a failure there ends in one alert. Only the logo of the form can change,
     * and `uploadingLogo` is off and the input cleared however it ends.
     */
    method HandleLogoUpload(file: Option<SelectedFile>, env: Env, server: ServerUpload, serverSaved: bool,
                            now: nat, nonce: string, storage: StorageUpload, clientSaved: bool)
      returns (effects: seq<SettingsEffect>)
      modifies this
      ensures saving == old(saving)
      ensures file.None? ==>
        effects == [] && formData == old(formData) && uploadingLogo == old(uploadingLogo) && fileInput == old(fileInput)
      ensures file.Some? && CheckLogoFile(file.value).Reject? ==>
        effects == [Alert(CheckLogoFile(file.value).message)] && formData == old(formData)
        && uploadingLogo == old(uploadingLogo) && fileInput == old(fileInput)
      ensures file.Some? && CheckLogoFile(file.value) == Accept ==>
        !uploadingLogo && fileInput == "" && formData == old(formData).(logoUrl := formData.logoUrl)
      ensures file.Some? && CheckLogoFile(file.value) == Accept ==>
        effects == UploadEffects(ServerBase(env) + "/api/logo", server, serverSaved,
                                 ClientKey(file.value, now, nonce), file.value.mimeType, storage, clientSaved)
      ensures file.Some? && CheckLogoFile(file.value) == Accept ==>
        formData.logoUrl ==
             if !ServerRouteDone(server, serverSaved) && storage.Stored? then storage.publicUrl
             else if server.ServerUploaded? then server.publicUrl
             else old(formData.logoUrl)
    {
      if file.None? {
        return [];
      }
      var selected := file.value;
      var check := CheckLogoFile(selected);
      if check.Reject? {
        return [Alert(check.message)];
      }
      effects := UploadAccepted(selected, env, server, serverSaved, now, nonce, storage, clientSaved);
    }

    /** An accepted file: the server route and, when it does not finish, the direct upload. */
    method UploadAccepted(file: SelectedFile, env: Env, server: ServerUpload, serverSaved: bool,
                          now: nat, nonce: string, storage: StorageUpload, clientSaved: bool)
      returns (effects: seq<SettingsEffect>)
      modifies this
      ensures saving == old(saving) && !uploadingLogo && fileInput == ""
      ensures formData == old(formData).(logoUrl := formData.logoUrl)
      ensures effects == UploadEffects(ServerBase(env) + "/api/logo", server, serverSaved,
                                       ClientKey(file, now, nonce), file.mimeType, storage, clientSaved)
      ensures formData.logoUrl ==
        if !ServerRouteDone(server, serverSaved) && storage.Stored? then storage.publicUrl
        else if server.ServerUploaded? then server.publicUrl
        else old(formData.logoUrl)
    {
      uploadingLogo := true;
      var postUrl := ServerBase(env) + "/api/logo";
      effects := [PostLogo(postUrl)];
      if server.ServerUploaded? {
        formData := formData.(logoUrl := server.publicUrl);
        effects := effects + [UpdateDetails(LogoOnly(server.publicUrl))];
      }
      assert effects == [PostLogo(postUrl)] + ServerRouteEffects(server);
      if !ServerRouteDone(server, serverSaved) {
        var key := ClientKey(file, now, nonce);
        var direct := UploadDirectly(key, file.mimeType, storage, clientSaved);
        effects := effects + direct;
      }
      uploadingLogo := false;
      fileInput := "";
    }

    /** The direct-upload fallback of `handleLogoUpload`: store under `key`, then save the URL in the details. */
    method UploadDirectly(key: string, contentType: string, storage: StorageUpload, clientSaved: bool)
      returns (effects: seq<SettingsEffect>)
      modifies this
      ensures saving == old(saving) && uploadingLogo == old(uploadingLogo) && fileInput == old(fileInput)
      ensures formData == if storage.Stored? then old(formData).(logoUrl := storage.publicUrl) else old(formData)
      ensures effects == DirectUploadEffects(key, contentType, storage, clientSaved)
    {
      effects := [StoreLogo(key, contentType)];
      if storage.Stored? {
        formData := formData.(logoUrl := storage.publicUrl);
        effects := effects + [UpdateDetails(LogoOnly(storage.publicUrl))];
        if !clientSaved {
          effects := effects + [Alert(UploadFailedMessage)];
        }
      } else {
        effects := effects + [Alert(UploadFailedMessage)];
      }
    }

    /**
     * `handleRemoveLogo`: unless the user confirms, nothing happens; otherwise
     * the form's logo becomes '' and the details are asked to store '', with
     * an alert when that fails (`updated`). Nothing else in the form changes.
     */
    method HandleRemoveLogo(confirmed: bool, updated: bool) returns (effects: seq<SettingsEffect>)
      modifies this
      ensures uploadingLogo == old(uploadingLogo) && fileInput == old(fileInput)
      ensures !confirmed ==> effects == [] && formData == old(formData) && saving == old(saving)
      ensures confirmed ==> formData == old(formData).(logoUrl := "") && !saving
      ensures confirmed && updated ==> effects == [UpdateDetails(LogoOnly(""))]
      ensures confirmed && !updated ==> effects == [UpdateDetails(LogoOnly("")), Alert("Failed to remove logo")]
    {
      if !confirmed {
        return [];
      }
      saving := true;
      formData := formData.(logoUrl := "");
      effects := [UpdateDetails(LogoOnly(""))];
      if !updated {
        effects := effects + [Alert("Failed to remove logo")];
      }
      saving := false;
    }
  }
}
