/** The part of the shared preferences store that the room dialogs use: the two
    session defaults, which the dialogs overwrite, and the region, which the
    create dialog reads once. */
module Preferences {

  /** A region code such as "cn-hz"; the dialogs only pass it along. */
  type Region = string

  class PreferencesStore {
    var autoMicOn: bool
    var autoCameraOn: bool
    var region: Region

    constructor (autoMicOn: bool, autoCameraOn: bool, region: Region)
      ensures this.autoMicOn == autoMicOn && this.autoCameraOn == autoCameraOn
      ensures this.region == region
    {
      this.autoMicOn := autoMicOn;
      this.autoCameraOn := autoCameraOn;
      this.region := region;
    }

    function GetRegion(): Region
      reads this
    {
      region
    }

    method UpdateAutoMicOn(on: bool)
      modifies this
      ensures autoMicOn == on
      ensures autoCameraOn == old(autoCameraOn) && region == old(region)
    {
      autoMicOn := on;
    }

    method UpdateAutoCameraOn(on: bool)
      modifies this
      ensures autoCameraOn == on
      ensures autoMicOn == old(autoMicOn) && region == old(region)
    {
      autoCameraOn := on;
    }
  }
}
