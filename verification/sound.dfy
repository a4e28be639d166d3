/** The volume conversion of the SDL sound back end. */
module SDLSound {

  /** realLiveVolumeToSDLMixerVolume: a RealLive volume (0..256) halved into
      SDL_mixer's range (0..128) by C++ integer division, which truncates
      toward zero. */
  function RealLiveVolumeToSDLMixerVolume(inVol: int): (r: int)
    ensures 0 <= inVol ==> 2 * r <= inVol <= 2 * r + 1
    ensures inVol < 0 ==> 2 * r - 1 <= inVol <= 2 * r
  {
    if inVol >= 0 then inVol / 2 else -((-inVol) / 2)
  }

  /** Volumes in 0..256 map into 0..128, with 0 to 0 and 256 to 128. */
  lemma VolumeRange(inVol: int)
    requires 0 <= inVol <= 256
    ensures 0 <= RealLiveVolumeToSDLMixerVolume(inVol) <= 128
    ensures inVol == 0 ==> RealLiveVolumeToSDLMixerVolume(inVol) == 0
    ensures inVol == 256 ==> RealLiveVolumeToSDLMixerVolume(inVol) == 128
  {
  }

  /** A louder RealLive volume is never a quieter SDL_mixer volume. */
  lemma VolumeMonotone(a: int, b: int)
    requires a <= b
    ensures RealLiveVolumeToSDLMixerVolume(a) <= RealLiveVolumeToSDLMixerVolume(b)
  {
  }
}
