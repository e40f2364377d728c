/**
 * The two message tables of the services and their lookup with fallback to
 * English. A table is kept as the list of entries of its object literal in
 * the order they are written; the literal repeats `noUser`, and in a JavaScript object
 * literal the later entry wins.
 */
module ApiTranslation {
  import opened Wrappers

  type Table = seq<(string, string)>

  const En: Table := [
      ("noDocument", "There is no document with this id!"),
      ("restrictedAction", "You do not have permission to perform this aciton."),
      ("notAnImageFile", "Not an image file. Please upload only image files."),
      ("noFile", "There is not a file in your reuest."),
      ("cabinHasBooking", "This cabin can not be deleted. It has active bookings."),
      ("activationMailSend", "New user has been created. New user must create a password by clicking the link that was send by email, before log in."),
      ("emailSendError", "There was an error sending the email. Please try again later!"),
      ("invalidActivateToken", "This token is invalid or the user has not been created yet. Please contact with your manager."),
      ("passwordConfirmNotSubmitted", "Password or confirmation password is not submitted. Please submit password and confirmation password. "),
      ("passwordAndConfirmPasswordNotSame", "Password and confirm password do not macth."),
      ("passwordCreated", "Your password has been created. You can log in."),
      ("emailPasswordNotSubmitted", "Email or password not submitted."),
      ("noUser", "There is no user registered with this email."),
      ("newUserNoPassword", "Your pasword has not created yet. Please check your mail box."),
      ("lockecAccount", "Your account has been locked. please contact your manager."),
      ("tooManyWronAttempt", "Too many wrong attempt! Your account has been suspended, please contact your manager."),
      ("wrongPassword", "Password is incorrect. Please try again."),
      ("notExistUser", "User is not exist."),
      ("changedPassword", "Your password has been changed. Please log in again."),
      ("noRefreshToken", "You do not have a refresh token. Please log in again."),
      ("userNotLoggedIn", "User not logged in. Please login."),
      ("refreshTokenNotCorrect", "Submitted token is not correct."),
      ("unAuthorized", "You do not have permission to perform this action."),
      ("userNotRegistered", "You can not activate this account. The user should click the link send via email and activate this account."),
      ("roleUpdateForbidden", "You can not update your role."),
      ("passwordUpdateForbidden", "You can not update your password through this route."),
      ("onlyPasswordUpdate", "Only password can be updated through this route."),
      ("noCurrentPassword", "Please submit your current password."),
      ("guestNotMatch", "This e-mail address has been recorded for another guest. Your name, or nationality information are not match the recorded guest. Please check the submitted information or change e-mail address."),
      ("bookingDataMissing", "PNRCode, nationalId or email is missing."),
      ("noBooking", "There is no booking record. Please check the submitted fields."),
      ("resetPassword", "The password of user has been reset. The user should click the link send via email to create new password."),
      ("noUser", "There is no user with this id."),
      ("userCannotDeleted", "This user can not be deleted!")
    ]

  const Tr: Table := [
      ("noDocument", "Bu id ye sahip bir document bulunmamaktadır!"),
      ("restrictedAction", "Bu işlemi gerçekleştirme yetkiniz bulunmuyor."),
      ("notAnImageFile", "Bu bir imge dosyası değil.Lütfen sadece image dosyası yükleyin"),
      ("noFile", "Yollanan request file nesnesi içermiyor."),
      ("cabinHasBooking", "Bu kabin silinemiyor. Kabine ait aktif rezervasyon bulunuyor."),
      ("activationMailSend", "Yeni kullanıcı oluşturuldu. Yeni kullanıcı oturum açmadan önce elektronik posta ile yollanan linke tıklayarak bir parola oluşturmalıdır."),
      ("emailSendError", "Elektronik posta gönderilirken bir hata oluştu. Lütfen daha sonra tekrar deneyin!"),
      ("invalidActivateToken", "Bu token geçerli değil veya kullanıcı henüz oluşturulmamış. Lütfen yöneticiniz ile iletişime geçin."),
      ("passwordConfirmNotSubmitted", "Parola veya onay parolası girilmemiş. Lütfen parolayı ve onay parılasını giriniz."),
      ("passwordAndConfirmPasswordNotSame", "Parola ve onay parolası eşleşmiyor."),
      ("passwordCreated", "Parolanız oluşturulmuştur. Oturum açabilirsiniz."),
      ("emailPasswordNotSubmitted", "Elektronik posta adresi veya parola girilmedi."),
      ("noUser", "Bu elektronik posta adresi ile kayıt edilmiş bir kullanıcı bulunmuyor."),
      ("newUserNoPassword", "Henüz parolanız oluşturulmamış. Lütfen elektronik posta kutunuzu kontrol ediniz."),
      ("lockecAccount", "Hesabınız kilitlenmiştir. Lütfen yöneticiniz ile iletişime geçin."),
      ("tooManyWronAttempt", "Çok fazla hatalı giriş talebi. Hesabınız askıya alınmıştır, lütfen yöneticiniz ile iletişime geçiniz."),
      ("wrongPassword", "Parola hatalı. Lütfen tekrar deneyin."),
      ("notExistUser", "Böyle bir kullanıcı bulunmuyor."),
      ("changedPassword", "Parolanız değiştirildi. Lütfen tekrar oturum açın."),
      ("noRefreshToken", "Refresh tokeniniz bulunmuyor. Lütfen tekrar oturum açın."),
      ("userNotLoggedIn", "Kullanıcı oturum açmamış. Lütfen oturum açın."),
      ("refreshTokenNotCorrect", "Gönderilen token doğru değil."),
      ("unAuthorized", "Bu işlemi gerçekleştirme yetkiniz bulunmuyor."),
      ("userNotRegistered", "Bu hesabı aktifleştiremezsiniz. Kullanıcı elektronik posta ile kendisine yollanan linke tıklayarak hesabını aktifleştirmeli."),
      ("roleUpdateForbidden", "Rolünüzü değiştiremezsiniz."),
      ("passwordUpdateForbidden", "Parolanızı bu bağlantı üzerinden değiştiremezsiniz."),
      ("onlyPasswordUpdate", "Bu bağlantı üzerinden sadece parolanızı güncelleyebilirsiniz."),
      ("noCurrentPassword", "Lütfen mevcut parolanızı giriniz."),
      ("guestNotMatch", "Bu elektronik posta adresi başka bir misafir adına kayıt edilmiş. Adınız veya kimlik bilgileriniz kayıtlı kullanıcının bilgileri ile uyuşmuyor. Lütfen bilgileri kontrol edin veya başka bir elektronik posta adresi girin."),
      ("bookingDataMissing", "PNRCode, nationalId veya email bilgisi eksik."),
      ("noBooking", "Rezervasyon kaydı bulunamadı. Lütfen iletilen bilgileri kontrol ediniz."),
      ("resetPassword", "Parola sıfırlandı. Kullanıcı yeni porola belirlemek için, lektronik posta adresine yollanan linki tıklamalıdır."),
      ("noUser", "Kullanıcı bulunamadı."),
      ("userCannotDeleted", "Bu kullanıcı silinemez!")
    ]

  /** The fields of each table, in the order they are written (`noUser` twice). */
  const FieldNames: seq<string> := [
      "noDocument", "restrictedAction", "notAnImageFile", "noFile", "cabinHasBooking",
      "activationMailSend", "emailSendError", "invalidActivateToken", "passwordConfirmNotSubmitted",
      "passwordAndConfirmPasswordNotSame", "passwordCreated", "emailPasswordNotSubmitted", "noUser",
      "newUserNoPassword", "lockecAccount", "tooManyWronAttempt", "wrongPassword", "notExistUser",
      "changedPassword", "noRefreshToken", "userNotLoggedIn", "refreshTokenNotCorrect",
      "unAuthorized", "userNotRegistered", "roleUpdateForbidden", "passwordUpdateForbidden",
      "onlyPasswordUpdate", "noCurrentPassword", "guestNotMatch", "bookingDataMissing", "noBooking",
      "resetPassword", "noUser", "userCannotDeleted"
    ]

  function KeysOf(t: Table): (ks: seq<string>)
    ensures |ks| == |t|
    ensures forall i :: 0 <= i < |t| ==> ks[i] == t[i].0
  {
    seq(|t|, i requires 0 <= i < |t| => t[i].0)
  }

  /** `table[key]` for an object literal: the last entry with that key, `None` for `undefined`. */
  function Lookup(t: Table, key: string): (r: Option<string>)
    ensures r.None? <==> key !in KeysOf(t)
    ensures r.Some? ==> exists i :: 0 <= i < |t| && t[i] == (key, r.value)
                                   && forall j :: i < j < |t| ==> t[j].0 != key
  {
    if t == [] then None
    else if t[|t| - 1].0 == key then Some(t[|t| - 1].1)
    else
      assert KeysOf(t) == KeysOf(t[..|t| - 1]) + [t[|t| - 1].0];
      Lookup(t[..|t| - 1], key)
  }

  /** The entries of a `texts` object: each language with its table. */
  type TextEntries = seq<(string, Table)>

  function Languages(texts: TextEntries): (ls: seq<string>)
    ensures |ls| == |texts|
    ensures forall i :: 0 <= i < |texts| ==> ls[i] == texts[i].0
  {
    if texts == [] then [] else [texts[0].0] + Languages(texts[1..])
  }

  /** A `texts` object with an English table, the one every missing language falls back to. */
  type Texts = t: TextEntries | "en" in Languages(t) witness [("en", [])]

  /** `texts[lang]` for a language the object owns (its first entry). */
  function TableOf(texts: TextEntries, lang: string): (t: Table)
    requires lang in Languages(texts)
    ensures exists i :: 0 <= i < |texts| && texts[i] == (lang, t)
  {
    if texts[0].0 == lang then texts[0].1
    else
      assert lang in Languages(texts[1..]) by {
        var i :| 0 <= i < |texts| && texts[i].0 == lang;
        assert Languages(texts[1..])[i - 1] == lang;
      }
      TableOf(texts[1..], lang)
  }

  /** A `texts` object of an English and a Turkish table. */
  function EnglishAndTurkish(en: Table, tr: Table): (t: Texts)
    ensures Languages(t) == ["en", "tr"]
    ensures TableOf(t, "en") == en && TableOf(t, "tr") == tr
  {
    [("en", en), ("tr", tr)]
  }

  /** The object the services use. */
  const TheTexts: Texts := EnglishAndTurkish(En, Tr)

  /** The English table lists the fields in the order they are written. */
  lemma EnFields()
    ensures KeysOf(En) == FieldNames
  {
  }

  /** The Turkish table lists the same fields in the same order. */
  lemma TrFields()
    ensures KeysOf(Tr) == FieldNames
  {
  }

  /** `noUser` is written twice in the English table with two texts; the earlier text is this one ... */
  lemma EnglishFirstNoUser()
    ensures En[12] == ("noUser", "There is no user registered with this email.")
  {
  }

  /** ... and the later one is read. */
  lemma EnglishNoUserLaterEntryWins()
    ensures Lookup(En, "noUser") == Some("There is no user with this id.")
  {
    assert En[|En| - 1].0[0] != "noUser"[0];
    LastButOne(En, "noUser", "There is no user with this id.");
  }

  /** A key in the entry before the last, and not in the last one, is looked up there. */
  lemma LastButOne(t: Table, key: string, text: string)
    requires |t| >= 2 && t[|t| - 2] == (key, text) && t[|t| - 1].0 != key
    ensures Lookup(t, key) == Some(text)
  {
    assert t[..|t| - 1][|t| - 2] == (key, text);
  }

  /** The Turkish table also writes `noUser` twice; the earlier text is this one ... */
  lemma TurkishFirstNoUser()
    ensures Tr[12] == ("noUser", "Bu elektronik posta adresi ile kay\U{0131}t edilmi\U{015f} bir kullan\U{0131}c\U{0131} bulunmuyor.")
  {
  }

  /** ... and the later one is read. */
  lemma TurkishNoUserLaterEntryWins()
    ensures Lookup(Tr, "noUser") == Some("Kullan\U{0131}c\U{0131} bulunamad\U{0131}.")
  {
    assert Tr[|Tr| - 1].0[0] != "noUser"[0];
    LastButOne(Tr, "noUser", "Kullan\U{0131}c\U{0131} bulunamad\U{0131}.");
  }

  class ApiTranslation {
    const texts: Texts

    constructor(texts: Texts)
      ensures this.texts == texts
    {
      this.texts := texts;
    }

    /** The table `translate` reads for `lang`: `undefined` selects "en", a language the texts lack falls back to "en". */
    function ChosenLanguage(lang: Option<string>): (l: string)
      ensures l in Languages(texts)
      ensures lang.Some? && lang.value in Languages(texts) ==> l == lang.value
      ensures !(lang.Some? && lang.value in Languages(texts)) ==> l == "en"
    {
      var l := lang.GetOr("en");
      if l in Languages(texts) then l else "en"
    }

    /**
     * `translate(lang = "en", textField)`: the table of `lang` when it is an
     * own key of the texts, otherwise the English one; an unknown field gives
     * `undefined`.
     */
    function Translate(lang: Option<string>, textField: string): (r: Option<string>)
      ensures r.None? <==> textField !in KeysOf(TableOf(texts, ChosenLanguage(lang)))
      ensures r.Some? ==> (textField, r.value) in TableOf(texts, ChosenLanguage(lang))
    {
      Lookup(TableOf(texts, ChosenLanguage(lang)), textField)
    }

    /** The message text used in an error, `undefined` rendered as the empty message. */
    function Text(lang: Option<string>, textField: string): string {
      Translate(lang, textField).GetOr("")
    }
  }

  /** An omitted language and any language without a table read the English table. */
  lemma FallbackToEnglish(t: ApiTranslation, lang: string, textField: string)
    requires lang !in Languages(t.texts)
    ensures t.Translate(Some(lang), textField) == t.Translate(None, textField)
    ensures t.Translate(None, textField) == t.Translate(Some("en"), textField)
  {
  }

  /**
   * When every table of the texts has the same fields, a field is found, in
   * whichever language, exactly when it is a field of the English table.
   */
  lemma TranslateFound(t: ApiTranslation, lang: Option<string>, textField: string)
    requires forall l :: l in Languages(t.texts) ==> KeysOf(TableOf(t.texts, l)) == KeysOf(TableOf(t.texts, "en"))
    ensures t.Translate(lang, textField).None? <==> textField !in KeysOf(TableOf(t.texts, "en"))
  {
  }
}
