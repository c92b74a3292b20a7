/** The closed option sets and the records shared by the service and the session (types.ts). */
module Types {

  /** Where the caption goes: 'atas' (top) or 'bawah' (bottom). */
  datatype PlacementOption = Atas | Bawah

  /** The decorative frame: 'tidak ada' (none), 'sederhana' (simple), 'elegan', 'modern', 'vintage'. */
  datatype FrameOption = TidakAda | Sederhana | Elegan | Modern | Vintage

  /** The branding corner: 'atas-kiri', 'atas-kanan', 'bawah-kiri', 'bawah-kanan'. */
  datatype LogoPlacementOption = AtasKiri | AtasKanan | BawahKiri | BawahKanan

  /** One generated caption: an id assigned by the service and its text (`teks`). */
  datatype QuoteOption = QuoteOption(id: int, teks: string)

  /** A decoded upload: its base64 payload, its declared MIME type and its data-URL preview. */
  datatype UploadedFile = UploadedFile(base64: string, mimeType: string, previewUrl: string)
}
