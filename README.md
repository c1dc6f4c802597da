# Radio playlist generator — verified model

A Dafny model of the core of a desktop tool that builds a day's playlist for a ZaraRadio
station and writes it as a `.lst` file. The day is split into hour blocks. Each block has a
genre and a music folder. The generator:

- fills each block with up to 15 tracks drawn from a shuffled listing of its folder, never
  taking the same file twice in one day;
- after every third track of a block, weaves in a time marker, then station identifications,
  congratulations or promos, taken round-robin from four numbered-file rotators;
- frames the day with an opening and a closing made of the national anthem, the state anthem
  and a poem.

The `.lst` writer turns the playlist into an exact sequence of lines: a byte-order mark, a
header, block comments, `-1 .time` for time markers and `<size> <path>` for files.

Around the engine, the model covers:

- the schedule-table helpers of the main window: validating a time-range edit, the cascade
  that re-chains the later rows, the `Bloque NN: … | genre | folder` line writer and
  parser, row filtering and validation;
- the random-selection utility;
- the playlist, block and insertion records.

Modules, one per file:

| file | module | models |
|---|---|---|
| `opcionales.dfy` | `Opcionales` | `Option`, for Java's nullable results |
| `secuencias.dfy` | `Secuencias` | generic sequence helpers (distinctness, numbering, inclusion) |
| `texto.dfy` | `Texto` | `trim`, `toLowerCase`, `indexOf`, `split`, decimal rendering and parsing |
| `tiempo.dfy` | `Tiempo` | `LocalTime` as seconds of the day, its `HH:mm[:ss]` formats, parsing and wrap-around `plus` |
| `sistema_archivos.dfy` | `SistemaArchivos` | the disk as a value: folder listings and file sizes; `getName`, extension stripping, the audio test |
| `azar.dfy` | `Azar` | `Random.nextInt` and `Collections.shuffle`, driven by caller-supplied draws |
| `generos.dfy`, `canciones.dfy`, `inserciones_especiales.dfy` | `Generos`, `Canciones`, `InsercionesEspeciales` | the value records and their display names |
| `bloque_hora.dfy`, `lista_reproduccion.dfy` | `BloquesHora`, `ListasReproduccion` | the mutable block and playlist classes |
| `rotador.dfy` | `Rotacion` | `RotadorElementos`: the numbered-file cursor |
| `generacion.dfy` | `Generacion` | the generation as functions on values: population, weaving, pattern, ceremony, the whole day |
| `generador.dfy` | `Generador` | `GeneradorListaService` as a class whose methods are proved against `Generacion` |
| `archivo_service.dfy` | `Archivos` | `ArchivoService`: the `.lst` and configuration writers |
| `randomizador.dfy` | `Randomizador` | `Randomizador` |
| `controlador.dfy` | `Controlador` | the schedule-table helpers of `MainController` and its `ConfiguracionHora` rows |

Conventions:

- **Randomness.** `Random.nextInt(n)` is a caller-supplied natural reduced modulo `n`.
  `Collections.shuffle` is the JDK's swap loop driven by a sequence of such draws. The model
  proves properties for every choice of draws, so nothing depends on the distribution.
- **Disk.** The disk is a `Disco` value. It maps each existing folder to its listing (name
  and whether the entry is a regular file, in `listFiles()` order) and each existing path to
  its `length()`. A path `exists()` exactly when it has a length, folders included: a folder's
  length is whatever the platform reports, an arbitrary input (`DiscoCoherente`). An absolute
  path is the folder, `/` and the name.
- **Times.** A time of day is seconds since midnight. `LocalTime.plus` wraps modulo 86400.
- **Mutable objects.** Objects the source updates in place (`BloqueHora`,
  `ListaReproduccion`, `RotadorElementos`, `GeneradorListaService`, `ConfiguracionHora`,
  the table of `MainController`) are classes. Each exposes its state as a value, `Valor()`
  or `Modelo()`. Their methods are proved to leave exactly the state a specification
  function computes from the old state.

Where the prose design and the code disagree, the model follows the code:

- The three-track cadence of the weaving pass restarts in every block; the track index `i`
  is per block. Only the pattern phase runs across blocks.
- Rotator files with the same number keep their listing order: the comparator looks only at
  the number, and the sort is stable. Ties are not broken by name.

## Model

| member | source | states |
|---|---|---|
| Generos.ValoresCompletos | src/main/java/com/radio/models/Genero.java:3-16 | the enumeration has exactly thirteen genres, all distinct, and every genre is among them |
| Generos.NombreCampoLimpio | src/main/java/com/radio/models/Genero.java:4-26 | every display name is non-empty, has no blank at either end and no `|`, so it survives the configuration line's split and trim |
| Canciones.ArtistaYTitulo | src/main/java/com/radio/services/GeneradorListaService.java:250-257 | without `" - "` the artist is "Artista Desconocido" and the title is the whole name; with it both parts are trimmed (no blank borders) and together shorter than the name |
| Canciones.ArtistaYTituloSeparados | src/main/java/com/radio/services/GeneradorListaService.java:250-253 | a name "artist - title" splits back into the trimmed artist and the trimmed title, for every artist without a separator of its own and not ending in " -" (the title may hold further separators) |
| InsercionesEspeciales.NombresTipoDistintos | src/main/java/com/radio/models/InsercionEspecial.java:7-24 | the six insertion types have pairwise distinct display names |
| BloquesHora.BloqueHora.constructor | src/main/java/com/radio/models/BloqueHora.java:16-28 | the four given fields are stored unchanged, with no tracks, no insertions and a tolerance of 5 |
| BloquesHora.BloqueHora.SetCanciones | src/main/java/com/radio/models/BloqueHora.java:67-69 | the track list is replaced and every other field keeps its value |
| BloquesHora.BloqueHora.AgregarCancion | src/main/java/com/radio/models/BloqueHora.java:71-73 | the track goes to the end of the tracks; insertions and the other fields are untouched |
| BloquesHora.BloqueHora.SetInserciones | src/main/java/com/radio/models/BloqueHora.java:79-81 | the insertion list is replaced and every other field keeps its value |
| BloquesHora.BloqueHora.AgregarInsercion | src/main/java/com/radio/models/BloqueHora.java:83-85 | the insertion goes to the end of the insertions; tracks and the other fields are untouched |
| BloquesHora.BloqueHora.SetToleranciaMinutos | src/main/java/com/radio/models/BloqueHora.java:91-93 | only the tolerance changes |
| ListasReproduccion.ListaReproduccion.constructor | src/main/java/com/radio/models/ListaReproduccion.java:17-29 | the given date, start 07:00, end 20:07, no blocks, empty opening and closing, no output path |
| ListasReproduccion.ListaReproduccion.InicializarBloquesEstandar | src/main/java/com/radio/models/ListaReproduccion.java:32-40 | thirteen fresh, distinct blocks, block i running from 7+i:00 to 8+i:00, genre Variado, no folder, empty, tolerance 5; nothing else changes |
| ListasReproduccion.ListaReproduccion.AgregarBloque | src/main/java/com/radio/models/ListaReproduccion.java:75-77 | the block is appended at the end and nothing else changes |
| ListasReproduccion.ListaReproduccion.SetApertura | src/main/java/com/radio/models/ListaReproduccion.java:83-85 | only the opening changes |
| ListasReproduccion.ListaReproduccion.SetCierre | src/main/java/com/radio/models/ListaReproduccion.java:91-93 | only the closing changes |
| ListasReproduccion.ListaReproduccion.SetRutaArchivoLst | src/main/java/com/radio/models/ListaReproduccion.java:99-101 | only the output path changes |
| ListasReproduccion.SumasConcatenadas | src/main/java/com/radio/models/ListaReproduccion.java:104-113 | the track and insertion totals of two runs of blocks add up |
| ListasReproduccion.SumaInsercionesVacias | src/main/java/com/radio/models/ListaReproduccion.java:109-113 | blocks without insertions add nothing to the insertion total |
| Tiempo.TextoHoraEnPunto | src/main/java/com/radio/models/BloqueHora.java:96-99 | on the hour, `LocalTime.toString()` in a block's text is the two-digit hour and ":00" |
| Tiempo.ParsearFormatoHMS | src/main/java/com/radio/controllers/MainController.java:751-752 | parsing the `HH:mm:ss` rendering of a time gives the time back |
| Tiempo.ParsearFormatoHM | src/main/java/com/radio/controllers/MainController.java:163-164 | parsing the `HH:mm` rendering gives the time back when its seconds are zero |
| Tiempo.Sumar | src/main/java/com/radio/controllers/MainController.java:202 | `plus` lands on the start plus the duration modulo one day |
| Texto.EnBlancoSiiRecortadoVacio | src/main/java/com/radio/controllers/MainController.java:465 | a string is blank character by character exactly when `trim()` leaves it empty |
| Texto.RecortarDaSinBordes | src/main/java/com/radio/controllers/MainController.java:734 | what `trim()` returns has no blank at either end and is no longer than its input |
| Texto.DividirTres | src/main/java/com/radio/controllers/MainController.java:727 | splitting three pieces joined by a separator that none of them contains gives the three pieces back |
| Texto.ValorDeNatATexto | src/main/java/com/radio/services/ArchivoService.java:183 | the decimal rendering of a size parses back to that size |
| Texto.RellenarDos | src/main/java/com/radio/controllers/MainController.java:675 | `%02d` of a number below 100 is its two decimal digits |
| SistemaArchivos.NombreDeRutaEn | src/main/java/com/radio/services/GeneradorListaService.java:245-246 | `getName()` of a folder path plus a name is that name |
| SistemaArchivos.QuitarExtension | src/main/java/com/radio/services/GeneradorListaService.java:246 | `replaceFirst("[.][^.]+$", "")` either leaves the name or drops a final '.' and at least one non-dot character after it |
| SistemaArchivos.QuitarExtensionDe | src/main/java/com/radio/services/GeneradorListaService.java:246 | a name followed by "." and an extension without dots loses exactly that suffix |
| SistemaArchivos.AudioSinExtension | src/main/java/com/radio/services/GeneradorListaService.java:389-394 | an audio file name loses exactly its four-character extension |
| SistemaArchivos.EsArchivoAudioSinMayusculas | src/main/java/com/radio/services/GeneradorListaService.java:389-394 | the audio-extension test ignores letter case |
| Azar.Elegir | src/main/java/com/radio/services/GeneradorListaService.java:382 | `nextInt(n)` is below `n` |
| Azar.Mezclar | src/main/java/com/radio/services/GeneradorListaService.java:209 | a shuffle keeps the length |
| Azar.MezclarPermuta | src/main/java/com/radio/utils/Randomizador.java:126-128 | a shuffle is a permutation: the same multiset |
| Azar.MezclarMismosElementos | src/main/java/com/radio/utils/Randomizador.java:42 | an element is in the shuffle exactly when it is in the input |
| Azar.MezclarDistintos | src/main/java/com/radio/services/GeneradorListaService.java:209 | shuffling distinct paths keeps them distinct |
| Azar.MezclarEnSitio | src/main/java/com/radio/utils/Randomizador.java:126-128 | the in-place swap loop leaves the array equal to the shuffle of its old contents |
| Azar.Mezclado | src/main/java/com/radio/utils/Randomizador.java:134-135 | shuffling a copy yields the shuffle of the list's elements |
| Rotacion.NumeroInicial | src/main/java/com/radio/services/GeneradorListaService.java:594-599 | the leading `\d{2,3}` match, if any, is below 1000 |
| Rotacion.NumeroDesde | src/main/java/com/radio/services/GeneradorListaService.java:614-619 | the leftmost `\d{2,3}` match is below 1000 |
| Rotacion.ExtraerNumero | src/main/java/com/radio/services/GeneradorListaService.java:604-622 | the number is below 1000; it is the leading number when the name has one, otherwise the leftmost two- or three-digit match anywhere in the name, otherwise 999 |
| Rotacion.ArchivosNumerados | src/main/java/com/radio/services/GeneradorListaService.java:538-542 | a rotator keeps only audio files whose name starts with two or three digits, no more than the listing holds |
| Rotacion.OrdenarPorNumero | src/main/java/com/radio/services/GeneradorListaService.java:551-555 | the sort is a permutation of the files and is ordered by file number |
| Rotacion.OrdenarEstable | src/main/java/com/radio/services/GeneradorListaService.java:551-555 | files with the same number keep their listing order |
| Rotacion.OrdenarYaOrdenado | src/main/java/com/radio/services/GeneradorListaService.java:551-555 | a listing already in number order is kept as it is |
| Rotacion.CursorInicial | src/main/java/com/radio/services/GeneradorListaService.java:530-565 | the new cursor is valid; when files were found the start index is the draw reduced into [0, n) |
| Rotacion.Siguiente | src/main/java/com/radio/services/GeneradorListaService.java:631-657 | a result comes back exactly when the rotator was initialised; files and prefix never change; the cursor stays valid |
| Rotacion.Iterar | src/main/java/com/radio/services/GeneradorListaService.java:631-657 | k calls give k results and keep the cursor valid over the same files |
| Rotacion.IterarCursor | src/main/java/com/radio/services/GeneradorListaService.java:647 | after k ≤ n calls the index has moved k steps round the cycle |
| Rotacion.IterarPosiciones | src/main/java/com/radio/services/GeneradorListaService.java:637-647 | the j-th of k calls returns the insertion of the file j steps after the start |
| Rotacion.VueltaCompleta | src/main/java/com/radio/services/GeneradorListaService.java:631-657 | n calls return every file once, in sorted order rotated to the start index, and call n+1 repeats the first |
| Rotacion.SinArchivosNada | src/main/java/com/radio/services/GeneradorListaService.java:632-635 | a rotator without files answers nothing and does not change |
| Rotacion.RotadorElementos.constructor | src/main/java/com/radio/services/GeneradorListaService.java:523-528 | the rotator's state is the initial cursor over its folder |
| Rotacion.RotadorElementos.ObtenerSiguiente | src/main/java/com/radio/services/GeneradorListaService.java:631-657 | result and new state are one step of the cursor; the folder is kept |
| Generacion.CrearCancionDesdeRuta | src/main/java/com/radio/services/GeneradorListaService.java:244-264 | path kept, 210 s, the block's genre; artist and title as `ArtistaYTitulo` reads the name without extension |
| Generacion.CancionDeArchivoNombrado | src/main/java/com/radio/services/GeneradorListaService.java:244-264 | a file "artist - title.ext" yields that artist and title |
| Generacion.MarcadorTiempo | src/main/java/com/radio/services/GeneradorListaService.java:114-122 | the marker pseudo-track carries the marker artist, by which the .lst writer recognises it; `MarcadorSeEscribe` shows it is written as the single line `-1 .time` on every disk, and `NombreNoEsMarcador` that no woven insertion carries that artist |
| Generacion.MarcadorSeEscribe | src/main/java/com/radio/services/GeneradorListaService.java:114-122 | the time marker is written as the single line `-1 .time` |
| Generacion.NombreNoEsMarcador | src/main/java/com/radio/services/GeneradorListaService.java:425-433 | no type's display name is the marker artist, so a woven insertion is never taken for a marker |
| Generacion.ConvertirInsercionACancion | src/main/java/com/radio/services/GeneradorListaService.java:425-433 | the converted track is never taken for a marker and keeps the insertion's path and duration; `InsercionConvertidaSeEscribe` shows the writer gives it a `<size> <path>` entry exactly when its file exists |
| Generacion.InsercionConvertidaSeEscribe | src/main/java/com/radio/services/GeneradorListaService.java:425-433 | a woven insertion is written as a `<size> <path>` entry, and only when its file exists |
| Generacion.CrearInsercionDesdeArchivo | src/main/java/com/radio/services/GeneradorListaService.java:399-420 | the requested type, the absolute path, 90 s for either anthem, 120 s for the poem, 30 s otherwise; the name is the file name or a proper prefix of it |
| Generacion.Consultar | src/main/java/com/radio/services/GeneradorListaService.java:141-147 | a null rotator gives nothing and stays null; a held one gives an item exactly when it found files and stays valid over its prefix |
| Generacion.TiposDeRotores | src/main/java/com/radio/services/GeneradorListaService.java:667-683 | identifications are Identificacion 15 s, congratulations Identificacion 20 s, both promo kinds Promo 30 s |
| Generacion.Patron | src/main/java/com/radio/services/GeneradorListaService.java:132-195 | at most two items; phase 0 mod 3 moves only the identification and congratulation rotators, other phases only the two promo rotators |
| Generacion.PatronTipos | src/main/java/com/radio/services/GeneradorListaService.java:132-195 | phase 0 mod 3 gives identification (15 s) then congratulation (20 s) items; other phases give 30 s promos |
| Generacion.Tejer | src/main/java/com/radio/services/GeneradorListaService.java:74-101 | weaving one block's tracks keeps the rotators valid |
| Generacion.TejerMedidas | src/main/java/com/radio/services/GeneradorListaService.java:74-101 | the phase advances once per complete group of three; each group gains the marker and at most two items |
| Generacion.TejerUnion | src/main/java/com/radio/services/GeneradorListaService.java:74-101 | weaving complete groups and then the rest is weaving the whole, the phase and rotators carried over |
| Generacion.TejerCorto | src/main/java/com/radio/services/GeneradorListaService.java:74-79 | a block of fewer than three tracks is left as it is, with the phase and rotators unchanged |
| Generacion.TejerConservaCanciones | src/main/java/com/radio/services/GeneradorListaService.java:74-76 | the original tracks stay in the woven list, in their order |
| Generacion.TejerPrimerGrupo | src/main/java/com/radio/services/GeneradorListaService.java:74-98 | the first group is the three tracks, the marker and the converted items of the current phase |
| Generacion.TejerGrupo | src/main/java/com/radio/services/GeneradorListaService.java:79-98 | one more group appends its three tracks, the marker and the items of the phase reached, and advances the phase |
| Generacion.TejerResto | src/main/java/com/radio/services/GeneradorListaService.java:74-101 | the trailing one or two tracks are appended with nothing after them |
| Generacion.TejerBloques | src/main/java/com/radio/services/GeneradorListaService.java:64-109 | every block keeps its times, genre and folder, gets woven tracks and loses its separate insertions |
| Generacion.TejerBloquesFase | src/main/java/com/radio/services/GeneradorListaService.java:65-98 | the global phase starts once and advances by the insertion points of all blocks; it is never reset between blocks |
| Generacion.TejerBloquesPaso | src/main/java/com/radio/services/GeneradorListaService.java:67-108 | one more block is woven from the phase and rotators the earlier blocks left |
| Generacion.TejerBloquesCadaUno | src/main/java/com/radio/services/GeneradorListaService.java:67-108 | block i is the weaving of its own tracks from the phase reached by blocks 0..i-1 |
| Generacion.TejidosSinInserciones | src/main/java/com/radio/services/GeneradorListaService.java:104-105 | after weaving, the playlist's insertion total is just its opening plus its closing |
| Generacion.Aceptadas | src/main/java/com/radio/services/GeneradorListaService.java:215-232 | accepted paths are at most 15, distinct, unused before and from the candidates; below 15 every candidate ends used or accepted |
| Generacion.AceptadasPaso | src/main/java/com/radio/services/GeneradorListaService.java:215-232 | one candidate step: an unused path is accepted and marked, a used one skipped |
| Generacion.RutasDeCanciones | src/main/java/com/radio/services/GeneradorListaService.java:259 | the tracks of a block carry the accepted paths, in order |
| Generacion.PoblarBloque | src/main/java/com/radio/services/GeneradorListaService.java:200-239 | a block without folder and the used set are unchanged; otherwise at most 15 tracks with distinct unused paths, none for a missing folder, no more than its audio files, and the used set grows by exactly those paths |
| Generacion.PoblarDeLaCarpeta | src/main/java/com/radio/services/GeneradorListaService.java:206 | each accepted path is an audio file of the block's folder |
| Generacion.PoblarCompleto | src/main/java/com/radio/services/GeneradorListaService.java:211-232 | a block that got fewer than 15 tracks holds every audio file of its folder not used before |
| Generacion.PoblarBloques | src/main/java/com/radio/services/GeneradorListaService.java:49-51 | blocks keep everything but their tracks, and the used set only grows |
| Generacion.PoblarBloquesPaso | src/main/java/com/radio/services/GeneradorListaService.java:49-51 | each block is populated from the used set the blocks before it left |
| Generacion.SinRepetidas | src/main/java/com/radio/services/GeneradorListaService.java:42 | within one generation no path is accepted twice, in one block or in two, and none that was used before |
| Generacion.Coincidencias | src/main/java/com/radio/services/GeneradorListaService.java:371-375 | the matches are no more than the listing |
| Generacion.CoincidenciaDeLaCarpeta | src/main/java/com/radio/services/GeneradorListaService.java:371-375 | every match is a regular audio file of the folder whose name starts with the identifier |
| Generacion.CoincidenciasCompletas | src/main/java/com/radio/services/GeneradorListaService.java:371-379 | every qualifying entry is a match, so there are none exactly when no entry qualifies |
| Generacion.ObtenerElementoPorIdentificador | src/main/java/com/radio/services/GeneradorListaService.java:365-384 | a found element has the requested type and its ceremonial duration |
| Generacion.ElementoPresente | src/main/java/com/radio/services/GeneradorListaService.java:365-384 | an element is found exactly when a qualifying file is present, and it is made from one of them |
| Generacion.Hueco | src/main/java/com/radio/services/GeneradorListaService.java:329-330 | a ceremonial slot holds one item of its type when a file qualifies, else none |
| Generacion.CeremoniaEnOrden | src/main/java/com/radio/services/GeneradorListaService.java:325-360 | anthem, anthem, poem, each at most once, are in opening order one way and closing order the other |
| Generacion.Apertura | src/main/java/com/radio/services/GeneradorListaService.java:325-341 | the opening has one item per prefix 01, 02, 03 that has a file, in that order |
| Generacion.Cierre | src/main/java/com/radio/services/GeneradorListaService.java:346-360 | the closing has the same items in reverse order, poem first |
| Generacion.CierreInvertido | src/main/java/com/radio/services/GeneradorListaService.java:346-360 | with the draws in reverse order the closing is the opening reversed |
| Generacion.ConfiguracionEstandarContigua | src/main/java/com/radio/services/GeneradorListaService.java:438-452 | thirteen contiguous one-hour blocks from 07:00 to 20:00 |
| Generacion.RotorIniciado | src/main/java/com/radio/services/GeneradorListaService.java:273-278 | a set folder gives a new rotator over it; an unset one keeps the rotator held |
| Generacion.RotoresIniciales | src/main/java/com/radio/services/GeneradorListaService.java:270-302 | the initialised rotators are valid whenever the previous ones were |
| Generacion.ListaGenerada | src/main/java/com/radio/services/GeneradorListaService.java:38-58 | the new playlist has the date, 07:00 to 20:07, the opening and closing of the ceremonial folder, one block per configuration entry with its fields |
| Generacion.ListaGeneradaPartes | src/main/java/com/radio/services/GeneradorListaService.java:38-58 | the playlist is the stages in source order: rotators, blocks, opening, population, weaving, closing |
| Generacion.GeneradaInserciones | src/main/java/com/radio/services/GeneradorListaService.java:53-58 | a generated playlist's insertions are only its opening and closing, at most six |
| Generacion.GeneradaSinRepetidas | src/main/java/com/radio/services/GeneradorListaService.java:41-51 | no song path is used twice in a day, and the used set holds exactly the accepted paths |
| Generador.GeneradorListaService.constructor | src/main/java/com/radio/services/GeneradorListaService.java:31-33 | no folders set, no rotators, nothing used |
| Generador.GeneradorListaService.SetRutaElementosEspeciales | src/main/java/com/radio/services/GeneradorListaService.java:456-458 | only the ceremonial folder changes |
| Generador.GeneradorListaService.SetRutaIdentificaciones | src/main/java/com/radio/services/GeneradorListaService.java:461-463 | only the identifications folder changes |
| Generador.GeneradorListaService.SetRutaFelicitaciones | src/main/java/com/radio/services/GeneradorListaService.java:466-468 | only the congratulations folder changes |
| Generador.GeneradorListaService.SetRutaPromosA | src/main/java/com/radio/services/GeneradorListaService.java:471-473 | only the promos A folder changes |
| Generador.GeneradorListaService.SetRutaPromosB | src/main/java/com/radio/services/GeneradorListaService.java:476-478 | only the promos B folder changes |
| Generador.GeneradorListaService.GenerarListaCompleta | src/main/java/com/radio/services/GeneradorListaService.java:38-58 | the returned playlist, the rotators and the used set are exactly `ListaGenerada` of the folders and rotators held before |
| Generador.GeneradorListaService.ArmarLista | src/main/java/com/radio/services/GeneradorListaService.java:44-55 | the playlist's blocks are populated and then woven, and the opening and closing are set |
| Generador.GeneradorListaService.PrepararBloques | src/main/java/com/radio/services/GeneradorListaService.java:45-51 | configured blocks, opening and population, with fresh distinct block objects |
| Generador.GeneradorListaService.TerminarLista | src/main/java/com/radio/services/GeneradorListaService.java:54-55 | the weaving from phase 0 and the closing |
| Generador.GeneradorListaService.InicializarRotadores | src/main/java/com/radio/services/GeneradorListaService.java:270-302 | the rotators become `RotoresIniciales` of the old ones and the folders |
| Generador.GeneradorListaService.NuevosRotadores | src/main/java/com/radio/services/GeneradorListaService.java:270-302 | the four rotators are `RotoresIniciales`, valid, pairwise separate objects |
| Generador.GeneradorListaService.ObtenerElementosSegunPatron | src/main/java/com/radio/services/GeneradorListaService.java:132-195 | items and rotators are exactly `Patron` of the phase |
| Generador.GeneradorListaService.InsertarEnBloque | src/main/java/com/radio/services/GeneradorListaService.java:67-108 | one block's tracks become `Tejer` of its old tracks, its insertions empty, the phase returned |
| Generador.GeneradorListaService.InsertarElementosEspeciales | src/main/java/com/radio/services/GeneradorListaService.java:64-109 | every block becomes `TejerBloques` from phase 0 and the rotators end as it says |
| Generador.GeneradorListaService.TejerTodos | src/main/java/com/radio/services/GeneradorListaService.java:67-108 | the loop over the blocks is `TejerBloques` from the given phase |
| Generador.GeneradorListaService.TejerBloqueEnLista | src/main/java/com/radio/services/GeneradorListaService.java:67-108 | one iteration extends the woven prefix by block k |
| Generador.GeneradorListaService.TejerCanciones | src/main/java/com/radio/services/GeneradorListaService.java:74-101 | the loop over one block's tracks is `Tejer` |
| Generador.GeneradorListaService.ProcesarCancion | src/main/java/com/radio/services/GeneradorListaService.java:74-100 | one track: appended, and the locution after it when it closes a group |
| Generador.GeneradorListaService.CerrarGrupo | src/main/java/com/radio/services/GeneradorListaService.java:79-100 | the end of a group appends the marker and the pattern items and advances the phase |
| Generador.GeneradorListaService.InsertarLocucion | src/main/java/com/radio/services/GeneradorListaService.java:82-96 | the time marker then the converted pattern items of that phase |
| Generador.GeneradorListaService.ConfigurarBloques | src/main/java/com/radio/services/GeneradorListaService.java:307-320 | the blocks are replaced by one fresh, distinct block per configuration entry, tolerance 5 |
| Generador.GeneradorListaService.GenerarApertura | src/main/java/com/radio/services/GeneradorListaService.java:325-341 | the playlist's opening becomes `Apertura` of the ceremonial folder |
| Generador.GeneradorListaService.GenerarCierre | src/main/java/com/radio/services/GeneradorListaService.java:346-360 | the playlist's closing becomes `Cierre` of the ceremonial folder |
| Generador.GeneradorListaService.GenerarContenidoBloqueConVerificacion | src/main/java/com/radio/services/GeneradorListaService.java:200-239 | block and used set become `PoblarBloque` of their old values |
| Generador.GeneradorListaService.GenerarContenidoBloques | src/main/java/com/radio/services/GeneradorListaService.java:49-51 | the population loop over the playlist's blocks is `PoblarBloques` |
| Generador.GeneradorListaService.PoblarTodos | src/main/java/com/radio/services/GeneradorListaService.java:49-51 | the same loop over the block objects |
| Generador.GeneradorListaService.PoblarBloqueEnLista | src/main/java/com/radio/services/GeneradorListaService.java:49-51 | one iteration extends the populated prefix by block k |
| Generador.AceptarCanciones | src/main/java/com/radio/services/GeneradorListaService.java:215-232 | the tracks and used set are those of the `Aceptadas` paths; the attempt guard never fires |
| Generador.AceptarSiguiente | src/main/java/com/radio/services/GeneradorListaService.java:215-232 | one path keeps the acceptance loop's invariant |
| Generador.AceptarRuta | src/main/java/com/radio/services/GeneradorListaService.java:227-231 | an unused path joins the accepted ones and the used set, and its track is appended |
| Generador.SaltarRuta | src/main/java/com/radio/services/GeneradorListaService.java:227 | a used path leaves the loop's invariant as it was |
| Generador.CierraGrupo | src/main/java/com/radio/services/GeneradorListaService.java:79 | counting from a group start, the track after i closes the group exactly at the third |
| Generador.AgregarConvertidas | src/main/java/com/radio/services/GeneradorListaService.java:90-96 | every item of the pattern is converted and appended in order |
| Generador.NuevoBloque | src/main/java/com/radio/services/GeneradorListaService.java:311-317 | a fresh block with the configuration's fields and tolerance 5 |
| Generador.Preguntar | src/main/java/com/radio/services/GeneradorListaService.java:141-147 | a null rotator is skipped; a held one answers `Consultar` |
| Generador.Iniciar | src/main/java/com/radio/services/GeneradorListaService.java:273-278 | a set folder gives a fresh rotator; an unset one keeps the one held |
| Archivos.NombreArchivoLst | src/main/java/com/radio/services/ArchivoService.java:21-24 | the file name ends with ".lst" and starts with the destination, and equals it exactly when the destination already ends with ".lst" |
| Archivos.NombreArchivoLstEstable | src/main/java/com/radio/services/ArchivoService.java:21-24 | naming twice changes nothing, and the name always passes the `.lst` test |
| Archivos.LstEnMinusculas | src/main/java/com/radio/services/ArchivoService.java:110-112 | a path ending with ".lst" passes the `.lst` test |
| Archivos.EsArchivoLstSinMayusculas | src/main/java/com/radio/services/ArchivoService.java:110-112 | the `.lst` test ignores letter case and rejects null |
| Archivos.RutasAudio | src/main/java/com/radio/services/ArchivoService.java:125-136 | each reported path is an audio entry's name inside the folder |
| Archivos.RutasAudioCompletas | src/main/java/com/radio/services/ArchivoService.java:125-136 | every audio entry of the listing is reported |
| Archivos.ObtenerArchivosAudio | src/main/java/com/radio/services/ArchivoService.java:117-139 | nothing for a missing folder, else exactly the audio paths of its listing |
| Archivos.LineasCancion | src/main/java/com/radio/services/ArchivoService.java:167-184 | a marker writes `-1 .time`; any other track one line exactly when its file exists |
| Archivos.CarpetaSeEscribe | src/main/java/com/radio/services/ArchivoService.java:175-183 | a track whose path is an existing folder (a folder named like an audio file, which the audio listing keeps) still gets its entry line, as `exists()` is true for a folder |
| Archivos.EscribirCabeceraLst | src/main/java/com/radio/services/ArchivoService.java:142-148 | appends the five header lines and the blank line |
| Archivos.EscribirCancionLst | src/main/java/com/radio/services/ArchivoService.java:167-184 | appends the track's line, if any |
| Archivos.EscribirInserciones | src/main/java/com/radio/services/ArchivoService.java:186-197 | appends two lines per insertion, in order |
| Archivos.EscribirBloqueHora | src/main/java/com/radio/services/ArchivoService.java:150-165 | appends the block comment, its tracks, its insertions and a blank line |
| Archivos.EscribirBloques | src/main/java/com/radio/services/ArchivoService.java:37-39 | appends the blocks in list order |
| Archivos.EscribirContenidoLst | src/main/java/com/radio/services/ArchivoService.java:28-42 | header, opening, blocks, closing, in that order |
| Archivos.GuardarListaLst | src/main/java/com/radio/services/ArchivoService.java:18-52 | returns true exactly when no IOException arises; the text handed to the writer is the byte-order mark then the lines; a failure while opening or writing leaves the playlist unchanged, while a failure at close (after line 44 has recorded the name) returns false with the name already recorded |
| Archivos.LeerLineaEntrada | src/main/java/com/radio/services/ArchivoService.java:183 | a `<size> <path>` line reads back as its size and path |
| Archivos.MarcadorNoEsEntrada | src/main/java/com/radio/services/ArchivoService.java:170 | the marker line is not a file entry |
| Archivos.CancionFormato | src/main/java/com/radio/services/ArchivoService.java:167-184 | a track's lines are well-formed `.lst` lines |
| Archivos.InsercionFormato | src/main/java/com/radio/services/ArchivoService.java:186-197 | an insertion's two lines are a comment and a readable entry |
| Archivos.CancionesFormato | src/main/java/com/radio/services/ArchivoService.java:157-159 | a block's track lines are well-formed |
| Archivos.InsercionesFormato | src/main/java/com/radio/services/ArchivoService.java:186-197 | insertion lines are well-formed |
| Archivos.BloqueFormato | src/main/java/com/radio/services/ArchivoService.java:150-165 | a block's lines are well-formed |
| Archivos.BloquesFormato | src/main/java/com/radio/services/ArchivoService.java:37-39 | all block lines are well-formed |
| Archivos.ContenidoLstFormato | src/main/java/com/radio/services/ArchivoService.java:28-42 | every line of the file is blank, a comment, the marker or a readable entry |
| Archivos.InsercionesLongitud | src/main/java/com/radio/services/ArchivoService.java:186-197 | an insertion always takes two lines, even when its file is missing |
| Archivos.CancionesCompletas | src/main/java/com/radio/services/ArchivoService.java:175-179 | at most one line per track, and none is dropped exactly when every track is a marker or exists |
| Archivos.CabeceraLst | src/main/java/com/radio/services/ArchivoService.java:142-148 | the lines open with the six header lines |
| Archivos.CabeceraHoras | src/main/java/com/radio/services/ArchivoService.java:146-147 | the start and end in the header parse back to the playlist's own |
| Archivos.TextoLstEmpieza | src/main/java/com/radio/services/ArchivoService.java:28-31 | the text is the byte-order mark followed by the header |
| Archivos.BloquesConcatenados | src/main/java/com/radio/services/ArchivoService.java:37-39 | the lines of a run of blocks are each block's lines in order |
| Archivos.ExportacionNumerada | src/main/java/com/radio/services/ArchivoService.java:88-97 | block i is on line 5+i with the number i+1, and there are no other lines |
| Archivos.EscribirCabeceraExportacion | src/main/java/com/radio/services/ArchivoService.java:83-86 | the four comment lines and the blank line |
| Archivos.EscribirLineasBloques | src/main/java/com/radio/services/ArchivoService.java:88-97 | appends one numbered line per block |
| Archivos.ExportarConfiguracion | src/main/java/com/radio/services/ArchivoService.java:80-105 | on success the text is the export lines |
| Randomizador.ArchivosAudio | src/main/java/com/radio/utils/Randomizador.java:32-34 | no more audio files than entries |
| Randomizador.ArchivosAudioExactos | src/main/java/com/radio/utils/Randomizador.java:27-38 | each listed file is an audio entry, every audio entry is listed, and none exactly when the folder is missing or has no audio entry |
| Randomizador.ArchivosAudioEnCarpeta | src/main/java/com/radio/utils/Randomizador.java:161 | each file's path is its folder followed by its name |
| Randomizador.ArchivosAudioDistintos | src/main/java/com/radio/utils/Randomizador.java:32-34 | entries with distinct names give files with distinct paths |
| Randomizador.CoincideSinPrefijo | src/main/java/com/radio/utils/Randomizador.java:140-143 | the randomizer's filter is the service's one with an empty identifier |
| Randomizador.MezclarCanciones | src/main/java/com/radio/utils/Randomizador.java:126-128 | the list becomes its shuffle, a permutation of it |
| Randomizador.Cuantas | src/main/java/com/radio/utils/Randomizador.java:45 | `min(cantidad, size)` as a loop bound: within both, and equal to the size when below the request |
| Randomizador.SeleccionarAleatorios | src/main/java/com/radio/utils/Randomizador.java:133-137 | the first min(cantidad, size) elements of a shuffled copy |
| Randomizador.SeleccionAleatoriaEsSubmultiset | src/main/java/com/radio/utils/Randomizador.java:133-137 | exactly min(cantidad, size) elements, drawn without replacement, all of them when enough are asked |
| Randomizador.CrearCancionDesdeArchivo | src/main/java/com/radio/utils/Randomizador.java:145-165 | absolute path, 210 s, no genre |
| Randomizador.CancionComoDeRuta | src/main/java/com/radio/utils/Randomizador.java:145-165 | the same artist and title as the service's track from that path, with no genre |
| Randomizador.SeleccionCantidad | src/main/java/com/radio/utils/Randomizador.java:41-47 | min(cantidad, files) files, and none exactly when the request is not positive or there are no files |
| Randomizador.SeleccionDeLaCarpeta | src/main/java/com/radio/utils/Randomizador.java:32-48 | every picked file is an audio file of the folder |
| Randomizador.SeleccionSinRepetir | src/main/java/com/radio/utils/Randomizador.java:41-48 | no file is picked twice |
| Randomizador.ObtenerCancionesAleatorias | src/main/java/com/radio/utils/Randomizador.java:24-54 | the tracks of the selected files, none for a missing or empty folder |
| Randomizador.PrimerasCanciones | src/main/java/com/radio/utils/Randomizador.java:45-51 | the loop makes the tracks of the first min(cantidad, size) files |
| Randomizador.ObtenerCancionAleatoria | src/main/java/com/radio/utils/Randomizador.java:59-62 | null exactly when the folder has no audio file, else a track of one of its files |
| Randomizador.DuracionesComparadas | src/main/java/com/radio/utils/Randomizador.java:178-197 | the randomizer and the service agree on durations except for time announcements and identifications |
| Randomizador.CrearInsercionDesdeArchivo | src/main/java/com/radio/utils/Randomizador.java:167-200 | requested type, absolute path, the type's duration (90/90/120/10/15/30 s) |
| Randomizador.ObtenerInsercionAleatoria | src/main/java/com/radio/utils/Randomizador.java:67-86 | null exactly when there is no audio file, else an insertion of the type from one of them |
| Randomizador.InsercionAleatoriaComoElemento | src/main/java/com/radio/utils/Randomizador.java:67-86 | for anthems, poem and promos it is the service's search with an empty identifier |
| Randomizador.ObtenerInsercionesAleatorias | src/main/java/com/radio/utils/Randomizador.java:91-121 | the insertions of the selected files |
| Randomizador.PrimerasInserciones | src/main/java/com/radio/utils/Randomizador.java:112-118 | the loop makes the insertions of the first min(cantidad, size) files |
| Randomizador.InsercionesAleatoriasDeLaCarpeta | src/main/java/com/radio/utils/Randomizador.java:91-121 | every insertion has the type and its duration, comes from the folder, and none repeats |
| Randomizador.CancionesAleatoriasSinRepetir | src/main/java/com/radio/utils/Randomizador.java:24-54 | the tracks have no genre, 210 s, come from the folder, and no path repeats |
| Controlador.ConfiguracionHora.constructor | src/main/java/com/radio/controllers/MainController.java:796-801 | the row holds the four given fields |
| Controlador.ConfiguracionHora.SetHoraInicio | src/main/java/com/radio/controllers/MainController.java:810 | only the start changes |
| Controlador.ConfiguracionHora.SetHoraFin | src/main/java/com/radio/controllers/MainController.java:813 | only the end changes |
| Controlador.Posicion | src/main/java/com/radio/controllers/MainController.java:183 | `indexOf`: the first position holding the row, or none when it is absent |
| Controlador.CambioHorario | src/main/java/com/radio/controllers/MainController.java:155-178 | accepted exactly when the text reads as two times with the end strictly after the start, and then it is that range |
| Controlador.LeerRangoDe | src/main/java/com/radio/controllers/MainController.java:158-164 | two clean times joined by " - " read back as those times |
| Controlador.LeerRangoHMS | src/main/java/com/radio/controllers/MainController.java:158-164 | "HH:mm:ss - HH:mm:ss" reads back as the two times |
| Controlador.CambioHorarioHMS | src/main/java/com/radio/controllers/MainController.java:155-178 | a written range is accepted exactly when its end is after its start |
| Controlador.CambioHorarioHoraTexto | src/main/java/com/radio/controllers/MainController.java:803-806 | a row's own "HH:mm - HH:mm" text, typed back, gives its times when the end is later |
| Controlador.Encadenar | src/main/java/com/radio/controllers/MainController.java:191-205 | chaining keeps the number of rows |
| Controlador.EncadenarConserva | src/main/java/com/radio/controllers/MainController.java:195-202 | each moved row keeps its genre, its folder and its duration modulo a day |
| Controlador.EncadenarContiguo | src/main/java/com/radio/controllers/MainController.java:201-205 | the first moved row starts at the given end, each other where the previous ends |
| Controlador.MismaDuracion | src/main/java/com/radio/controllers/MainController.java:195-202 | an end computed as start plus d is d after the start modulo a day |
| Controlador.Cascada | src/main/java/com/radio/controllers/MainController.java:182-210 | the cascade keeps the number of rows |
| Controlador.CascadaPropiedades | src/main/java/com/radio/controllers/MainController.java:182-210 | rows up to the edited one are untouched; every row keeps its content and duration; rows from the edited one on are contiguous |
| Controlador.BuscarGeneroPorNombre | src/main/java/com/radio/controllers/MainController.java:776-783 | the genre with exactly that display name, Variado when there is none |
| Controlador.NombreInyectivo | src/main/java/com/radio/controllers/MainController.java:776-783 | two genres with the same name are the same genre |
| Controlador.BuscarNombrePropio | src/main/java/com/radio/controllers/MainController.java:776-783 | looking up a genre's own name finds it |
| Controlador.CampoHorasLeido | src/main/java/com/radio/controllers/MainController.java:734-752 | the time field "Bloque NN: HH:mm:ss - HH:mm:ss" reads back as its two times |
| Controlador.LeerCampoHoras | src/main/java/com/radio/controllers/MainController.java:734-752 | no range without ": " in the time field; otherwise the range read after the first ": "; `CampoHorasLeido` shows a written time field reads back as its two times |
| Controlador.LineaEnCampos | src/main/java/com/radio/controllers/MainController.java:727-728 | a written line splits on '|' into exactly three fields |
| Controlador.LeerLineaBloque | src/main/java/com/radio/controllers/MainController.java:724-763 | no row unless the line splits into exactly three '|'-fields; a row read has a trimmed folder and the range its time field reads as; `LeerLineaEscrita` (written line reads back as the row) and `LeerLineaDe` (three readable fields give that row) are its partners |
| Controlador.LeerLineaEscrita | src/main/java/com/radio/controllers/MainController.java:675-681 | round trip: a written block line parses back to the same start, end, genre and folder, for a non-empty folder without '|' or blank borders |
| Controlador.LeerLineaDe | src/main/java/com/radio/controllers/MainController.java:724-763 | three fields whose trimmed parts read as a range, a genre and a folder give that row |
| Controlador.ConfiguracionDeFilasExacta | src/main/java/com/radio/controllers/MainController.java:460-478 | the configuration keeps exactly the rows with a non-blank folder, in table order |
| Controlador.ConfiguracionVacia | src/main/java/com/radio/controllers/MainController.java:460-478 | the configuration is empty exactly when every folder is blank |
| Controlador.LineasExportadas | src/main/java/com/radio/controllers/MainController.java:671-684 | the export writes one line per configured row, numbered from 01 in table order |
| Controlador.LineaExportada | src/main/java/com/radio/controllers/MainController.java:674-682 | the k-th exported line is the k-th configured row's line, numbered k+1, and parses back to that row |
| Controlador.ErroresConfiguracion | src/main/java/com/radio/controllers/MainController.java:417-438 | at most six messages |
| Controlador.SinErroresSii | src/main/java/com/radio/controllers/MainController.java:417-448 | no message exactly when the five folder fields are set and some row has a folder |
| Controlador.ValidaSiiHayBloques | src/main/java/com/radio/controllers/MainController.java:417-448 | valid exactly when the five folders are set and the configuration is not empty |
| Controlador.HorariosIniciales | src/main/java/com/radio/controllers/MainController.java:273-285 | thirteen rows |
| Controlador.HorariosInicialesEstandar | src/main/java/com/radio/controllers/MainController.java:273-285 | the initial table is the generator's standard configuration, row by row |
| Controlador.HorariosInicialesSinBloques | src/main/java/com/radio/controllers/MainController.java:273-285 | the initial table yields no block, so it does not validate |
| Controlador.MainController.constructor | src/main/java/com/radio/controllers/MainController.java:77-82 | empty folder fields and the initial table |
| Controlador.MainController.InicializarHorarios | src/main/java/com/radio/controllers/MainController.java:273-285 | the table becomes thirteen fresh rows, the initial table |
| Controlador.MainController.ProcesarCambioHorario | src/main/java/com/radio/controllers/MainController.java:155-178 | returns whether the edit is accepted; then both times are set, otherwise the row is unchanged |
| Controlador.MainController.ActualizarHorariosSecuenciales | src/main/java/com/radio/controllers/MainController.java:182-210 | the rows become the cascade from the edited row's position |
| Controlador.MainController.CascadaDesde | src/main/java/com/radio/controllers/MainController.java:183-205 | the same on the row objects; nothing happens when the row is absent or last |
| Controlador.MainController.Cascadear | src/main/java/com/radio/controllers/MainController.java:188-209 | the loop over the later rows leaves the cascade |
| Controlador.MainController.PasoCascada | src/main/java/com/radio/controllers/MainController.java:191-205 | one iteration extends the moved part by one row |
| Controlador.MainController.MoverFila | src/main/java/com/radio/controllers/MainController.java:192-205 | one row moved to the given start with its own duration; the new end is returned |
| Controlador.MainController.ProcesarLineaBloque | src/main/java/com/radio/controllers/MainController.java:724-771 | a line that parses appends that row as a new object; any other line leaves the table as it was |
| Controlador.MainController.AgregarFila | src/main/java/com/radio/controllers/MainController.java:762-763 | a fresh row holding the values goes to the end |
| Controlador.MainController.CrearConfiguracionBloques | src/main/java/com/radio/controllers/MainController.java:460-478 | the configuration of the rows with a non-blank folder |
| Controlador.MainController.LineasBloquesExportacion | src/main/java/com/radio/controllers/MainController.java:671-684 | the export's block lines for the table |
| Controlador.MainController.LineasNumeradas | src/main/java/com/radio/controllers/MainController.java:671-684 | the loop numbers the rows with a folder from 1, in table order |
| Controlador.MainController.ValidarConfiguracion | src/main/java/com/radio/controllers/MainController.java:417-448 | true exactly when there is nothing to report |

## Left out

- Console output (`System.out`, `System.err`) and the JavaFX window are not modelled: cell factories, choosers, alerts, labels, preview, `limpiarTodo`, `generarLista` and `exportarLST` handlers, `Main.java`.
- Reading files: `cargarListaLst` and `procesarLineaLst` (the parse body does nothing), and `cargarConfiguracion`/`cargarConfiguracionDesdeArchivo`. Only the block-line parser `procesarLineaBloque` is modelled.
- `configurarRutasServicio`, `guardarConfiguracion`, `crearListaDesdeConfiguracion` and the folder-field and statistics lines of `exportarConfiguracionCompleta` (MainController.java lines 647-665 and 686-709). Only the block lines are modelled.
- Byte encodings: the writers produce strings. The byte-order mark is one leading character, and UTF-8 and the default charset are not modelled.
- The real file system: listings, existence and sizes are the `Disco` input. Listing order is an arbitrary input.
- The distribution of `Random` and `Collections.shuffle`: every draw is an arbitrary input, so the model states only what holds for all of them.
- `LocalTime` fractional seconds, and parsing forms other than `HH:mm` and `HH:mm:ss`.
- `LocalDate.now()`: the date is a parameter.
- Tiempo.FormatoFecha: prints the year as bare digits; `yyyy` prefixes years above 9999 with '+', which `LocalDate.now()` does not reach.
- Null paths: the service's folder fields start out null, and `obtenerElementoPorIdentificador` passes the ceremonial one to `new File` without a null test, so generating before the ceremonial folder is set throws `NullPointerException` in the source. The model stores "" instead, and that generation yields an empty opening and closing. The main window cannot reach this case: `generarLista` first validates that every folder field is non-empty and then `configurarRutasServicio` sets all five paths. The `Randomizador` methods likewise call `new File` on their folder argument without a null test; a null argument is not modelled.
- A disk with a folder at the empty path: `Disco.carpetas` may hold the key "", and the model would list it when "" is looked up as a folder, whereas `new File("").exists()` is false. Disks are assumed not to have such an entry.
- `toString` of `Cancion`, `InsercionEspecial` and `BloqueHora`, `getHoraTexto`, and `getTotalCanciones` are defined as functions, but they carry no contract of their own.
- `ConfiguracionHora.setGenero` and `setRutaCarpeta`: they are called only from the UI cell editors.
- Controlador.MainController.CascadaDesde: the table's row objects are assumed distinct (`SinRepetir`), which the source never breaks; a table holding one object twice is not modelled.
- Controlador.MainController.LineasNumeradas: takes the line formatter as a parameter; `LineasBloquesExportacion` passes the export's format.
- Randomizador.SeleccionarAleatorios: takes a natural count, because a negative count makes `subList` throw.
- Randomizador.CrearCancionDesdeArchivo: its contract states path, duration and genre; artist and title are stated by `CancionComoDeRuta` against the service's `crearCancionDesdeRuta`.
