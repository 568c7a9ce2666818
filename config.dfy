/** Constants of src/config.py that the modelled core reads. */
module Config {

  /** Mode used when a page does not choose one (`DEFAULT_MODE`). */
  const DefaultMode: string := "共感・エッセイ型"

  /** The other two modes the prompt table knows. */
  const KnowhowMode: string := "ノウハウ・ビジネス型"
  const RewriteMode: string := "推敲・リライト型"

  /** Canvas size of the header image, in pixels. */
  const ImageWidth: int := 1280
  const ImageHeight: int := 670
}
