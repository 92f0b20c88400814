/** The question bank `elementos`: sixteen questions in page order, mixing the
    three variants. The prompts of questions 8 and 16 are rich markup listing
    statements A to I and A to E; here they keep only their lead sentence. */
module Elementos {
  import opened Quiz

  const Q1: Question := MultipleChoice(1, "1) Opción múltiple",
    Some("Observar la figura y marcar la(s) alternativa(s) correcta(s):"), Some("/images/1.png"),
    [ Choice("a", "El proyecto dura 12 semanas."),
      Choice("b", "El proyecto dura 10 semanas."),
      Choice("c", "20 es el mínimo de personas que se necesitan en una semana."),
      Choice("d", "El proyecto dura 24 semanas."),
      Choice("e", "40 es el máximo de personas que se necesitan en una semana.") ],
    ["a", "e"])

  const Q2: Question := MultipleChoice(2, "2) Opción múltiple",
    Some("Observar la figura y marcar la(s) alternativa(s) correcta(s):"), Some("/images/2.png"),
    [ Choice("a", "Todas las tareas tienen la misma duración."),
      Choice("b", "Las tareas 1 y 2 se pueden realizar en paralelo."),
      Choice("c", "La tarea 2 no puede comenzar si la tarea 1 no ha finalizado."),
      Choice("d", "La fecha de comienzo de la tarea predecesora está dada por la fecha de término de la sucesora."),
      Choice("e", "La dependencia entre la tarea 1 y 2 es Finish-to-Start.") ],
    ["c", "e"])

  const Q3: Question := MultipleChoice(3, "3) Opción múltiple",
    Some("Observar la figura y marcar la(s) alternativa(s) correcta(s):"), Some("/images/3.png"),
    [ Choice("a", "Considerando la ruta crítica, la actividad crítica es Instalar sonido."),
      Choice("b", "Ninguna de las demás"),
      Choice("c", "Considerando la ruta crítica, la actividad crítica es Instalar asientos"),
      Choice("d", "Considerando la ruta crítica, las tres actividades son críticas"),
      Choice("e", "Considerando la ruta crítica, la actividad crítica es Instalar luces") ],
    ["a"])

  const Q4: Question := MultipleChoice(4, "4) Opción múltiple",
    Some("Observar la figura y marcar la(s) alternativa(s) correcta(s):"), Some("/images/4.png"),
    [ Choice("a", "Hay dependencia obligatoria entre la tarea 2 y la tarea 3"),
      Choice("b", "Hay dependencia obligatoria entre la tarea 3 y la tarea 4."),
      Choice("c", "Hay dependencia obligatoria entre la tarea 1 y la tarea 2."),
      Choice("d", "Ninguna de las demás"),
      Choice("e", "Hay dependencia obligatoria entre la tarea 4 y la tarea 5") ],
    ["b", "c"])

  const Q5: Question := Matching(5, "5) Coincidencia",
    Some("Relacione los Conceptos con las respectivas Aseveraciones:"), None,
    [ Row("1", "Dependencia Obligatoria"),
      Row("2", "Dependencia Discrecional"),
      Row("3", "Dependencia Externa"),
      Row("4", "Relación con Adelanto"),
      Row("5", "Relación de Retraso"),
      Row("6", "Holgura"),
      Row("7", "Ruta Crítica") ],
    [ Choice("a", "Alguna limitación física determina que necesariamente una actividad debe comenzar después de otra"),
      Choice("b", "La secuencia de las actividades la define el director del proyecto"),
      Choice("c", "Se relacionan actividades del proyecto con actividades que son ajenas a éste"),
      Choice("d", "Cuando la actividad sucesora comienza antes de que finalice su predecesora"),
      Choice("e", "Cuando la actividad sucesora comienza después de cierto tiempo desde que finaliza la actividad predecesora"),
      Choice("f", "Tiempo que se puede atrasar una actividad sin que se afecte la fecha de finalización del proyecto"),
      Choice("g", "Conjunto de actividades de mayor duración") ],
    map["1" := "a", "2" := "b", "3" := "c", "4" := "d", "5" := "e", "6" := "f", "7" := "g"])

  const Q6: Question := ImageMatching(6, "6) Observar las figuras",
    Some("Observa cada figura y selecciona el tipo de dependencia que representa:"),
    [ Figure("img1", "/images/6_adelanto.png", "adelanto"),
      Figure("img2", "/images/6_retraso.png", "retraso"),
      Figure("img3", "/images/6_start-to-start.png", "start-start"),
      Figure("img4", "/images/6_finish-to-finish.png", "finish-finish"),
      Figure("img5", "/images/6_start-to-finish.png", "start-finish") ],
    [ Choice("adelanto", "Adelanto (Lead)"),
      Choice("retraso", "Retraso (Lag)"),
      Choice("start-start", "Start-to-Start (SS)"),
      Choice("finish-finish", "Finish-to-Finish (FF)"),
      Choice("start-finish", "Start-to-Finish (SF)") ])

  const Q7: Question := Matching(7, "7) Coincidencia – Procesos de tiempo", None, None,
    [ Row("1", "Administrar Tiempos"),
      Row("2", "Definir Actividades"),
      Row("3", "Secuenciar Actividades"),
      Row("4", "Estimar Recursos"),
      Row("5", "Estimar Duraciones"),
      Row("6", "Programar"),
      Row("7", "Controlar Cambios") ],
    [ Choice("a", "Procesos necesarios para asegurar que el proyecto se cumpla dentro del tiempo preestablecido"),
      Choice("b", "Identificar y especificar actividades específicas para completar los entregables"),
      Choice("c", "Identificar la interactividad y dependencia entre las actividades"),
      Choice("d", "Definir los recursos necesarios para llevar a cabo las actividades"),
      Choice("e", "Estimar el tiempo necesario para completar las actividades individuales"),
      Choice("f", "Establecer principio y fin de cada actividad, analizando secuencia, duración y recursos"),
      Choice("g", "Actualizar los cambios que ocurren en la programación") ],
    map["1" := "a", "2" := "b", "3" := "c", "4" := "d", "5" := "e", "6" := "f", "7" := "g"])

  const Q8: Question := MultipleChoice(8, "8) Opción múltiple",
    Some("Para seleccionar los mejores proyectos, ordene las siguientes aseveraciones:"), None,
    [ Choice("a", "D - C - A - B - H - I - G - F – E"),
      Choice("b", "C - D - A - B - I - H - G - F – E"),
      Choice("c", "B - D - A - E - G - I - H - C – F"),
      Choice("d", "E - F - A - B - G - I - H - C – D"),
      Choice("e", "E - F - B - A - G - I - D - C - H") ],
    ["b"])

  const Q9: Question := Matching(9, "9) Coincidencia – Gestión del Alcance",
    Some("En el contexto de la Gestión del Alcance, relacione lo siguiente:"), None,
    [ Row("1", "Definir, verificar y controlar el alcance del proyecto"),
      Row("2", "Crear la estructura de descomposición del trabajo"),
      Row("3", "Detallar el plan del proyecto"),
      Row("4", "Dividir el proyecto en componentes menores"),
      Row("5", "Dividir el proyecto en componentes más fáciles de manejar"),
      Row("6", "Formalizar la aceptación de los entregables del proyecto"),
      Row("7", "Controlar los cambios del proyecto"),
      Row("8", "Lo que se hará y lo que no se hará en el proyecto") ],
    [ Choice("a", "Planificación"),
      Choice("b", "Definición"),
      Choice("c", "Crear la EDT"),
      Choice("d", "Verificación"),
      Choice("e", "Control de Cambios"),
      Choice("f", "Alcance del Proyecto") ],
    map["1" := "b", "2" := "c", "3" := "a", "4" := "c", "5" := "c", "6" := "d", "7" := "e", "8" := "f"])

  const Q10: Question := Matching(10, "10) Coincidencia – Objetivos del proyecto",
    Some("En el contexto de los objetivos del proyecto, relacione lo siguiente:"), None,
    [ Row("1", "Cualquier Stakeholder debe comprenderlos sin mayores inconvenientes"),
      Row("2", "Deben ser consecuentes con las restricciones de tiempo, alcance, recursos y calidad"),
      Row("3", "Definidos con fechas de inicio y término"),
      Row("4", "Facilidad en su valoración para poder verificar el éxito en el cumplimiento del proyecto"),
      Row("5", "El director del proyecto debe comprenderlos sin mayores inconvenientes"),
      Row("6", "Considerar el contexto en que nos encontramos y las herramientas con las que contamos") ],
    [ Choice("a", "Claridad"),
      Choice("b", "Realista"),
      Choice("c", "Temporal"),
      Choice("d", "Medible") ],
    map["1" := "a", "2" := "b", "3" := "c", "4" := "d", "5" := "a", "6" := "b"])

  const Q11: Question := MultipleChoice(11, "11) Opción múltiple",
    Some("Marcar los criterios para seleccionar los mejores proyectos:"), None,
    [ Choice("a", "Las características técnicas del producto."),
      Choice("b", "Políticas organizacionales."),
      Choice("c", "Todos los necesarios para determinar los beneficios del producto."),
      Choice("d", "La rentabilidad financiera del proyecto."),
      Choice("e", "Factores de riesgo asociados a cada alternativa."),
      Choice("f", "Identificar las restricciones legales."),
      Choice("g", "Analizar la viabilidad de la gestión para evaluar si es posible adecuar los RR.HH.") ],
    ["a", "c", "d", "e", "f", "g"])

  const Q12: Question := Matching(12, "12) Coincidencia – EDT y documentos base",
    Some("Relacione la aseveración con el respectivo concepto:"), None,
    [ Row("1", "Divide al proyecto en menores entregables más fáciles de manejar"),
      Row("2", "Demasiados niveles de descomposición de la EDT podrían implicar un proyecto"),
      Row("3", "Partidas de nivel más bajo de cualquier rama de una EDT es"),
      Row("4", "Donde se incluye una breve descripción del producto o servicio que se implementará con el proyecto"),
      Row("5", "Donde se justifica la necesidad de implementar el proyecto") ],
    [ Choice("a", "EDT"),
      Choice("b", "Inmanejable"),
      Choice("c", "Paquetes de trabajo"),
      Choice("d", "Acta de Constitución") ],
    map["1" := "a", "2" := "b", "3" := "c", "4" := "d", "5" := "d"])

  const Q13: Question := MultipleChoice(13, "13) Opción múltiple",
    Some("Elegir la alternativa(s) de proyecto para implementar un sistema:"), Some("/images/13.png"),
    [ Choice("a", "Proyecto \"A\" o \"B\""),
      Choice("b", "Ninguna de demás"),
      Choice("c", "Proyecto \"B\""),
      Choice("d", "Proyecto \"C\""),
      Choice("e", "Proyecto \"A\""),
      Choice("f", "Proyecto \"B\" o \"C\"") ],
    ["e"])

  const Q14: Question := Matching(14, "14) Coincidencia – Alcances y acta",
    Some("Relacione la aseveración con el respectivo concepto:"), None,
    [ Row("1", "El propósito es autorizar el uso de recursos de la organización para comenzar las tareas"),
      Row("2", "Sirve como autorización formal para comenzar el proyecto"),
      Row("3", "Corresponde a las características y funciones del sistema que se habrá de producir"),
      Row("4", "Se logra cuando el software cumple con los requerimientos específicos"),
      Row("5", "Un alcance del producto podría ser un componente de él"),
      Row("6", "Trabajo necesario para lograr el objetivo del proyecto") ],
    [ Choice("a", "Acta de Constitución"),
      Choice("b", "Alcance del Producto"),
      Choice("c", "Alcance del Proyecto") ],
    map["1" := "a", "2" := "a", "3" := "b", "4" := "b", "5" := "c", "6" := "c"])

  const Q15: Question := Matching(15, "15) Coincidencia – Causas que originan proyectos",
    Some("En el contexto de las causas que originan los proyectos, relacione lo siguiente:"), None,
    [ Row("1", "Se crean nuevos procesadores para satisfacer las crecientes necesidades de los clientes"),
      Row("2", "El área TI planifica un proyecto web solicitado por el directorio de la empresa"),
      Row("3", "Duoc crea una carrera 100% On-Line, aprovechando la mejora en la conectividad a Internet en el país"),
      Row("4", "Un proyecto tecnológico se ve obligado a utilizar la ley 19799 (Sobre documentos electrónicos, firma electrónica y servicios de certificación de dicha firma)"),
      Row("5", "Una empresa con fines filantrópicos crea una aplicación Mobile para apoyar la entrega de medicamentos a personas de la tercera edad") ],
    [ Choice("a", "Demanda"),
      Choice("b", "Cambio Tecnológico"),
      Choice("c", "Requerimiento Legal"),
      Choice("d", "Necesidad Social") ],
    map["1" := "a", "2" := "a", "3" := "b", "4" := "c", "5" := "d"])

  const Q16: Question := MultipleChoice(16, "16) Opción múltiple",
    Some("Ordene los elementos básicos que se deben cubrir al iniciar un proyecto:"), None,
    [ Choice("a", "D - B - E - A – C"),
      Choice("b", "A - B - C - D – E"),
      Choice("c", "C - A - B - D - E"),
      Choice("d", "D - E - A - B - C"),
      Choice("e", "C - A - B - E - D"),
      Choice("f", "D - E - C - A – B") ],
    ["f"])

  /** The bank in page order. */
  const Bank: seq<Question> :=
    [Q1, Q2, Q3, Q4, Q5, Q6, Q7, Q8, Q9, Q10, Q11, Q12, Q13, Q14, Q15, Q16]

  // Integrity of each question, proved conjunct by conjunct so that no
  // obligation has to unfold more than one question's literal.

  lemma Q1Keys()
    ensures Keys(Q1.options) == ["a", "b", "c", "d", "e"]
  {
  }

  lemma Q1Options()
    ensures UniqueKeys(Q1.options) && NonEmptyKeys(Q1.options)
  {
    Q1Keys();
  }

  lemma Q1Answers()
    ensures |Q1.correct| > 0 && NoDup(Q1.correct) && AllResolve(Q1.correct, Q1.options)
  {
    Q1Keys();
  }

  /** Question 1 satisfies every integrity condition. */
  lemma Q1WellFormed()
    ensures WellFormed(Q1)
  {
    Q1Options(); Q1Answers();
  }

  lemma Q2Keys()
    ensures Keys(Q2.options) == ["a", "b", "c", "d", "e"]
  {
  }

  lemma Q2Options()
    ensures UniqueKeys(Q2.options) && NonEmptyKeys(Q2.options)
  {
    Q2Keys();
  }

  lemma Q2Answers()
    ensures |Q2.correct| > 0 && NoDup(Q2.correct) && AllResolve(Q2.correct, Q2.options)
  {
    Q2Keys();
  }

  /** Question 2 satisfies every integrity condition. */
  lemma Q2WellFormed()
    ensures WellFormed(Q2)
  {
    Q2Options(); Q2Answers();
  }

  lemma Q3Keys()
    ensures Keys(Q3.options) == ["a", "b", "c", "d", "e"]
  {
  }

  lemma Q3Options()
    ensures UniqueKeys(Q3.options) && NonEmptyKeys(Q3.options)
  {
    Q3Keys();
  }

  lemma Q3Answers()
    ensures |Q3.correct| > 0 && NoDup(Q3.correct) && AllResolve(Q3.correct, Q3.options)
  {
    Q3Keys();
  }

  /** Question 3 satisfies every integrity condition. */
  lemma Q3WellFormed()
    ensures WellFormed(Q3)
  {
    Q3Options(); Q3Answers();
  }

  lemma Q4Keys()
    ensures Keys(Q4.options) == ["a", "b", "c", "d", "e"]
  {
  }

  lemma Q4Options()
    ensures UniqueKeys(Q4.options) && NonEmptyKeys(Q4.options)
  {
    Q4Keys();
  }

  lemma Q4Answers()
    ensures |Q4.correct| > 0 && NoDup(Q4.correct) && AllResolve(Q4.correct, Q4.options)
  {
    Q4Keys();
  }

  /** Question 4 satisfies every integrity condition. */
  lemma Q4WellFormed()
    ensures WellFormed(Q4)
  {
    Q4Options(); Q4Answers();
  }

  lemma Q5Keys()
    ensures Keys(Q5.right) == ["a", "b", "c", "d", "e", "f", "g"]
  {
  }

  lemma Q5Options()
    ensures UniqueKeys(Q5.right) && NonEmptyKeys(Q5.right)
  {
    Q5Keys();
  }

  lemma Q5Nums()
    ensures RowNums(Q5.left) == ["1", "2", "3", "4", "5", "6", "7"]
  {
  }

  lemma Q5Rows()
    ensures UniqueNums(Q5.left)
    ensures forall n :: n in RowNums(Q5.left) ==> n in Q5.solution
  {
    Q5Nums();
  }

  lemma Q5Solution()
    ensures forall n :: n in Q5.solution ==> HasKey(Q5.right, Q5.solution[n])
  {
    Q5Keys();
  }

  /** Question 5 satisfies every integrity condition. */
  lemma Q5WellFormed()
    ensures WellFormed(Q5)
  {
    Q5Options(); Q5Rows(); Q5Solution();
  }

  lemma Q6Keys()
    ensures Keys(Q6.options) == ["adelanto", "retraso", "start-start", "finish-finish", "start-finish"]
  {
  }

  lemma Q6Options()
    ensures UniqueKeys(Q6.options) && NonEmptyKeys(Q6.options)
  {
    Q6Keys();
  }

  lemma Q6Figures()
    ensures FigureIds(Q6.images) == ["img1", "img2", "img3", "img4", "img5"]
    ensures FigureAnswers(Q6.images) == ["adelanto", "retraso", "start-start", "finish-finish", "start-finish"]
  {
  }

  lemma Q6Images()
    ensures UniqueIds(Q6.images) && AllResolve(FigureAnswers(Q6.images), Q6.options)
  {
    Q6Figures(); Q6Keys();
  }

  /** Question 6 satisfies every integrity condition. */
  lemma Q6WellFormed()
    ensures WellFormed(Q6)
  {
    Q6Options(); Q6Images();
  }

  lemma Q7Keys()
    ensures Keys(Q7.right) == ["a", "b", "c", "d", "e", "f", "g"]
  {
  }

  lemma Q7Options()
    ensures UniqueKeys(Q7.right) && NonEmptyKeys(Q7.right)
  {
    Q7Keys();
  }

  lemma Q7Nums()
    ensures RowNums(Q7.left) == ["1", "2", "3", "4", "5", "6", "7"]
  {
  }

  lemma Q7Rows()
    ensures UniqueNums(Q7.left)
    ensures forall n :: n in RowNums(Q7.left) ==> n in Q7.solution
  {
    Q7Nums();
  }

  lemma Q7Solution()
    ensures forall n :: n in Q7.solution ==> HasKey(Q7.right, Q7.solution[n])
  {
    Q7Keys();
  }

  /** Question 7 satisfies every integrity condition. */
  lemma Q7WellFormed()
    ensures WellFormed(Q7)
  {
    Q7Options(); Q7Rows(); Q7Solution();
  }

  lemma Q8Keys()
    ensures Keys(Q8.options) == ["a", "b", "c", "d", "e"]
  {
  }

  lemma Q8Options()
    ensures UniqueKeys(Q8.options) && NonEmptyKeys(Q8.options)
  {
    Q8Keys();
  }

  lemma Q8Answers()
    ensures |Q8.correct| > 0 && NoDup(Q8.correct) && AllResolve(Q8.correct, Q8.options)
  {
    Q8Keys();
  }

  /** Question 8 satisfies every integrity condition. */
  lemma Q8WellFormed()
    ensures WellFormed(Q8)
  {
    Q8Options(); Q8Answers();
  }

  lemma Q9Keys()
    ensures Keys(Q9.right) == ["a", "b", "c", "d", "e", "f"]
  {
  }

  lemma Q9Options()
    ensures UniqueKeys(Q9.right) && NonEmptyKeys(Q9.right)
  {
    Q9Keys();
  }

  lemma Q9Nums()
    ensures RowNums(Q9.left) == ["1", "2", "3", "4", "5", "6", "7", "8"]
  {
  }

  lemma Q9Rows()
    ensures UniqueNums(Q9.left)
    ensures forall n :: n in RowNums(Q9.left) ==> n in Q9.solution
  {
    Q9Nums();
  }

  lemma Q9Solution()
    ensures forall n :: n in Q9.solution ==> HasKey(Q9.right, Q9.solution[n])
  {
    Q9Keys();
  }

  /** Question 9 satisfies every integrity condition. */
  lemma Q9WellFormed()
    ensures WellFormed(Q9)
  {
    Q9Options(); Q9Rows(); Q9Solution();
  }

  lemma Q10Keys()
    ensures Keys(Q10.right) == ["a", "b", "c", "d"]
  {
  }

  lemma Q10Options()
    ensures UniqueKeys(Q10.right) && NonEmptyKeys(Q10.right)
  {
    Q10Keys();
  }

  lemma Q10Nums()
    ensures RowNums(Q10.left) == ["1", "2", "3", "4", "5", "6"]
  {
  }

  lemma Q10Rows()
    ensures UniqueNums(Q10.left)
    ensures forall n :: n in RowNums(Q10.left) ==> n in Q10.solution
  {
    Q10Nums();
  }

  lemma Q10Solution()
    ensures forall n :: n in Q10.solution ==> HasKey(Q10.right, Q10.solution[n])
  {
    Q10Keys();
  }

  /** Question 10 satisfies every integrity condition. */
  lemma Q10WellFormed()
    ensures WellFormed(Q10)
  {
    Q10Options(); Q10Rows(); Q10Solution();
  }

  lemma Q11Keys()
    ensures Keys(Q11.options) == ["a", "b", "c", "d", "e", "f", "g"]
  {
  }

  lemma Q11Options()
    ensures UniqueKeys(Q11.options) && NonEmptyKeys(Q11.options)
  {
    Q11Keys();
  }

  lemma Q11Answers()
    ensures |Q11.correct| > 0 && NoDup(Q11.correct) && AllResolve(Q11.correct, Q11.options)
  {
    Q11Keys();
  }

  /** Question 11 satisfies every integrity condition. */
  lemma Q11WellFormed()
    ensures WellFormed(Q11)
  {
    Q11Options(); Q11Answers();
  }

  lemma Q12Keys()
    ensures Keys(Q12.right) == ["a", "b", "c", "d"]
  {
  }

  lemma Q12Options()
    ensures UniqueKeys(Q12.right) && NonEmptyKeys(Q12.right)
  {
    Q12Keys();
  }

  lemma Q12Nums()
    ensures RowNums(Q12.left) == ["1", "2", "3", "4", "5"]
  {
  }

  lemma Q12Rows()
    ensures UniqueNums(Q12.left)
    ensures forall n :: n in RowNums(Q12.left) ==> n in Q12.solution
  {
    Q12Nums();
  }

  lemma Q12Solution()
    ensures forall n :: n in Q12.solution ==> HasKey(Q12.right, Q12.solution[n])
  {
    Q12Keys();
  }

  /** Question 12 satisfies every integrity condition. */
  lemma Q12WellFormed()
    ensures WellFormed(Q12)
  {
    Q12Options(); Q12Rows(); Q12Solution();
  }

  lemma Q13Keys()
    ensures Keys(Q13.options) == ["a", "b", "c", "d", "e", "f"]
  {
  }

  lemma Q13Options()
    ensures UniqueKeys(Q13.options) && NonEmptyKeys(Q13.options)
  {
    Q13Keys();
  }

  lemma Q13Answers()
    ensures |Q13.correct| > 0 && NoDup(Q13.correct) && AllResolve(Q13.correct, Q13.options)
  {
    Q13Keys();
  }

  /** Question 13 satisfies every integrity condition. */
  lemma Q13WellFormed()
    ensures WellFormed(Q13)
  {
    Q13Options(); Q13Answers();
  }

  lemma Q14Keys()
    ensures Keys(Q14.right) == ["a", "b", "c"]
  {
  }

  lemma Q14Options()
    ensures UniqueKeys(Q14.right) && NonEmptyKeys(Q14.right)
  {
    Q14Keys();
  }

  lemma Q14Nums()
    ensures RowNums(Q14.left) == ["1", "2", "3", "4", "5", "6"]
  {
  }

  lemma Q14Rows()
    ensures UniqueNums(Q14.left)
    ensures forall n :: n in RowNums(Q14.left) ==> n in Q14.solution
  {
    Q14Nums();
  }

  lemma Q14Solution()
    ensures forall n :: n in Q14.solution ==> HasKey(Q14.right, Q14.solution[n])
  {
    Q14Keys();
  }

  /** Question 14 satisfies every integrity condition. */
  lemma Q14WellFormed()
    ensures WellFormed(Q14)
  {
    Q14Options(); Q14Rows(); Q14Solution();
  }

  lemma Q15Keys()
    ensures Keys(Q15.right) == ["a", "b", "c", "d"]
  {
  }

  lemma Q15Options()
    ensures UniqueKeys(Q15.right) && NonEmptyKeys(Q15.right)
  {
    Q15Keys();
  }

  lemma Q15Nums()
    ensures RowNums(Q15.left) == ["1", "2", "3", "4", "5"]
  {
  }

  lemma Q15Rows()
    ensures UniqueNums(Q15.left)
    ensures forall n :: n in RowNums(Q15.left) ==> n in Q15.solution
  {
    Q15Nums();
  }

  lemma Q15Solution()
    ensures forall n :: n in Q15.solution ==> HasKey(Q15.right, Q15.solution[n])
  {
    Q15Keys();
  }

  /** Question 15 satisfies every integrity condition. */
  lemma Q15WellFormed()
    ensures WellFormed(Q15)
  {
    Q15Options(); Q15Rows(); Q15Solution();
  }

  lemma Q16Keys()
    ensures Keys(Q16.options) == ["a", "b", "c", "d", "e", "f"]
  {
  }

  lemma Q16Options()
    ensures UniqueKeys(Q16.options) && NonEmptyKeys(Q16.options)
  {
    Q16Keys();
  }

  lemma Q16Answers()
    ensures |Q16.correct| > 0 && NoDup(Q16.correct) && AllResolve(Q16.correct, Q16.options)
  {
    Q16Keys();
  }

  /** Question 16 satisfies every integrity condition. */
  lemma Q16WellFormed()
    ensures WellFormed(Q16)
  {
    Q16Options(); Q16Answers();
  }

  /** The bank holds exactly the sixteen questions, in page order. */
  lemma BankMembers(q: Question)
    requires q in Bank
    ensures q == Q1 || q == Q2 || q == Q3 || q == Q4
         || q == Q5 || q == Q6 || q == Q7 || q == Q8
         || q == Q9 || q == Q10 || q == Q11 || q == Q12
         || q == Q13 || q == Q14 || q == Q15 || q == Q16
  {
  }

  /** Every question of the bank is well formed. */
  lemma BankWellFormed(q: Question)
    requires q in Bank
    ensures WellFormed(q)
  {
    BankMembers(q);
    if q == Q1 {
      Q1WellFormed();
    } else if q == Q2 {
      Q2WellFormed();
    } else if q == Q3 {
      Q3WellFormed();
    } else if q == Q4 {
      Q4WellFormed();
    } else if q == Q5 {
      Q5WellFormed();
    } else if q == Q6 {
      Q6WellFormed();
    } else if q == Q7 {
      Q7WellFormed();
    } else if q == Q8 {
      Q8WellFormed();
    } else if q == Q9 {
      Q9WellFormed();
    } else if q == Q10 {
      Q10WellFormed();
    } else if q == Q11 {
      Q11WellFormed();
    } else if q == Q12 {
      Q12WellFormed();
    } else if q == Q13 {
      Q13WellFormed();
    } else if q == Q14 {
      Q14WellFormed();
    } else if q == Q15 {
      Q15WellFormed();
    } else {
      Q16WellFormed();
    }
  }

  /** The bank lists the questions in page order: the question at position
      `i` is numbered `i + 1`, and the numbers (the components' React keys)
      are all distinct. */
  lemma BankOrder()
    ensures |Bank| == 16
    ensures forall i :: 0 <= i < |Bank| ==> Bank[i].id == i + 1
    ensures forall i, j :: 0 <= i < j < |Bank| ==> Bank[i].id != Bank[j].id
  {
  }
}
