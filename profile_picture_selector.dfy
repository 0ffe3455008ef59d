/**
 * The avatar picker of `ProfilePictureSelector.tsx`: the checks an uploaded
 * file must pass before it is read, and the avatar creator's record whose
 * skin tone, hair style and accessory are chosen one at a time.
 */
module ProfilePictureSelector {

  import opened Optional

  /** The selected file's MIME type and its size in bytes. */
  datatype FileInfo = FileInfo(mimeType: string, size: nat)

  /** What a file selection leads to: nothing, an alert, or the start of the read. */
  datatype UploadOutcome = NoFile | Rejected(alert: string) | ReadStarted

  const ImagePrefix := "image/"
  const MaxUploadBytes: nat := 5 * 1024 * 1024
  const TypeAlert := "Please upload an image file (PNG, JPG, or GIF)"
  const SizeAlert := "File size must be less than 5MB"

  predicate StartsWith(s: string, prefix: string)
    ensures StartsWith(s, prefix) <==> prefix <= s
  {
    |prefix| <= |s| && s[..|prefix|] == prefix
  }

  /**
   * `handleFileUpload`: no file does nothing; a non-image is refused whatever
   * its size; an image over 5 MiB is refused; every other image is read.
   */
  function HandleFileUpload(file: Option<FileInfo>): (r: UploadOutcome)
    ensures r.NoFile? <==> file.None?
    ensures r == Rejected(TypeAlert) <==> file.Some? && !StartsWith(file.value.mimeType, "image/")
    ensures r == Rejected(SizeAlert) <==>
              file.Some? && StartsWith(file.value.mimeType, "image/") && file.value.size > 5242880
    ensures r == ReadStarted <==>
              file.Some? && StartsWith(file.value.mimeType, "image/") && file.value.size <= 5242880
  {
    match file
    case None => NoFile
    case Some(f) =>
      if !StartsWith(f.mimeType, ImagePrefix) then Rejected(TypeAlert)
      else if f.size > MaxUploadBytes then Rejected(SizeAlert)
      else ReadStarted
  }

  /** The size limit is inclusive and the type check comes first. */
  lemma UploadBoundaries()
    ensures HandleFileUpload(Some(FileInfo("image/png", 5242880))) == ReadStarted
    ensures HandleFileUpload(Some(FileInfo("image/png", 5242881))) == Rejected(SizeAlert)
    ensures HandleFileUpload(Some(FileInfo("text/plain", 5242881))) == Rejected(TypeAlert)
  {
    assert "text/plain"[0] != ImagePrefix[0];
  }

  datatype Tab = Emoji | Upload | Creator | Linked

  datatype CustomAvatar = CustomAvatar(
    skinTone: string,
    hairStyle: string,
    hairColor: string,
    eyeColor: string,
    accessory: string)

  const DefaultAvatar := CustomAvatar("#FFD1A1", "short", "#2C1810", "#1E6884", "none")

  /** The choices the creator offers. */
  const HairStyles: seq<string> := ["short", "long", "curly", "bald", "spiky"]
  const Accessories: seq<string> := ["none", "glasses", "hat", "crown", "sunglasses"]
  const SkinTones: seq<string> := ["#FFD1A1", "#F1C27D", "#E0AC69", "#C68642", "#8D5524", "#654321"]

  /** Every chosen field is one the creator offers; hair and eye colour keep their defaults. */
  predicate Offered(a: CustomAvatar) {
    && a.skinTone in SkinTones
    && a.hairStyle in HairStyles
    && a.accessory in Accessories
    && a.hairColor == DefaultAvatar.hairColor
    && a.eyeColor == DefaultAvatar.eyeColor
  }

  class Selector {
    var activeTab: Tab
    var customAvatar: CustomAvatar

    ghost predicate Valid()
      reads this
    {
      Offered(customAvatar)
    }

    constructor ()
      ensures Valid()
      ensures activeTab == Emoji && customAvatar == DefaultAvatar
    {
      activeTab := Emoji;
      customAvatar := DefaultAvatar;
    }

    method SelectTab(tab: Tab)
      modifies this`activeTab
      ensures activeTab == tab
    {
      activeTab := tab;
    }

    /** A skin-tone button: only the skin tone changes. */
    method SelectSkinTone(tone: string)
      requires Valid() && tone in SkinTones
      modifies this`customAvatar
      ensures Valid()
      ensures customAvatar == old(customAvatar).(skinTone := tone)
    {
      customAvatar := customAvatar.(skinTone := tone);
    }

    /** A hair-style button: only the hair style changes. */
    method SelectHairStyle(style: string)
      requires Valid() && style in HairStyles
      modifies this`customAvatar
      ensures Valid()
      ensures customAvatar == old(customAvatar).(hairStyle := style)
    {
      customAvatar := customAvatar.(hairStyle := style);
    }

    /** An accessory button: only the accessory changes. */
    method SelectAccessory(acc: string)
      requires Valid() && acc in Accessories
      modifies this`customAvatar
      ensures Valid()
      ensures customAvatar == old(customAvatar).(accessory := acc)
    {
      customAvatar := customAvatar.(accessory := acc);
    }
  }

  /** The default record is made of offered choices. */
  lemma DefaultIsOffered()
    ensures Offered(DefaultAvatar)
  {
  }
}
