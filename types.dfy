/**
 * The shapes the avatar pipeline passes between the server and the client
 * (types/avatar.ts) and the placeholder values the wizard shows before an avatar
 * exists (app/constants/avatar.ts).
 */
module AvatarTypes {
  import opened Common
  import opened Js

  /** A named colour: `{ name, hex }`. */
  datatype Swatch = Swatch(name: string, hex: string)

  /** One photo-quality indicator `{ label, value }` (`label` is a Dafny keyword, hence `title`). */
  datatype PhotoScore = PhotoScore(title: string, value: Num)

  /** A stored avatar as the API returns it; `createDate` is milliseconds since the epoch. */
  datatype UserAvatarRecord = UserAvatarRecord(
    usuarioId: real,
    imagenAvatar: Option<string>,
    calidadFoto: seq<PhotoScore>,
    createDate: Option<int>,
    temporadaPalette: Option<string>,
    tonoPiel: Option<string>,
    subtono: Option<string>,
    coloresRecomendados: seq<Swatch>,
    coloresEvitar: seq<Swatch>)

  /** The season / skin tone / undertone triple shown above the palettes. */
  datatype ColorProfile = ColorProfile(temporada: string, tono: string, subtono: string)

  const DefaultPhotoScores: seq<PhotoScore> := [
    PhotoScore("Iluminación", Fin(95.0)),
    PhotoScore("Nitidez", Fin(88.0)),
    PhotoScore("Postura", Fin(94.0)),
    PhotoScore("Encuadre", Fin(90.0))
  ]

  const DefaultRecommendedColors: seq<Swatch> := [
    Swatch("Terracota", "#DB705C"),
    Swatch("Oliva", "#7E8F41"),
    Swatch("Mostaza", "#D9A441"),
    Swatch("Camel", "#C8A274"),
    Swatch("Chocolate", "#7A4A2C"),
    Swatch("Beige Cálido", "#E3C9A8")
  ]

  const DefaultAvoidColors: seq<Swatch> := [
    Swatch("Negro Puro", "#1A1A1A"),
    Swatch("Gris Frío", "#9AA5B1"),
    Swatch("Azul Hielo", "#C8D9F1")
  ]

  const DefaultColorProfile: ColorProfile := ColorProfile("Otoño", "Cálido - Medio", "Dorado")
}
